/** The scheduling loop of a wave: what one pass over the active nodes may do, and which orders it admits. */
module Schedules {
  import opened Wrappers
  import Prepared
  import opened Dag
  import opened Graphs
  import opened NameOrders
  import opened Waves

  /** A wave between two turns of the loop; `busy` are the providers with a live ticket. */
  datatype Stage = Stage(
    waiting: set<string>, pending: set<string>, unsuccessful: set<string>, marks: Marks, stopped: bool,
    busy: set<string>)

  /** What a started node has come to: a success, a domain error, an end that stops the wave, or a lost poll. */
  ghost predicate Settles(c: CompiledGraph, node: string, a: Stage, b: Stage)
    requires node in c.nodes
  {
    || (b.marks == a.marks.(succeeded := a.marks.succeeded + {node})
        && b.unsuccessful == a.unsuccessful && b.stopped == a.stopped)
    || (b.marks == a.marks.(failed := a.marks.failed + {node})
        && b.unsuccessful == a.unsuccessful + {node}
        && b.stopped == (a.stopped || c.nodes[node].failure == FailRoot))
    || (b.marks == a.marks.(ended := a.marks.ended + {node}) && b.unsuccessful == a.unsuccessful && b.stopped)
    || (b.marks == a.marks.(lost := a.marks.lost + {node})
        && b.unsuccessful == a.unsuccessful && b.stopped == a.stopped)
  }

  /** The call of a started node goes on, and keeps its provider busy, or has come to an end. Nobody else's work
      ends meanwhile. */
  ghost predicate Calls(c: CompiledGraph, node: string, a: Stage, b: Stage)
    requires node in c.nodes
  {
    && b.waiting == a.waiting && a.busy <= b.busy
    && (|| (b == a.(pending := a.pending + {node}, busy := b.busy) && c.nodes[node].Provider() in b.busy)
        || (b.pending == a.pending && Settles(c, node, a, b)))
  }

  /** One turn of the loop, for one active node: a waiting node is skipped behind an unsuccessful one, is passed over
      behind one that waits or is pending and while its provider is busy, and is started otherwise. */
  ghost predicate Turn(c: CompiledGraph, node: string, a: Stage, b: Stage) {
    node in c.nodes && node in c.predecessors &&
    if a.stopped || node !in a.waiting then b == a
    else if c.predecessors[node] * a.unsuccessful != {} then
      b == a.(waiting := a.waiting - {node}, unsuccessful := a.unsuccessful + {node},
              marks := a.marks.(skipped := a.marks.skipped + {node}))
    else if c.predecessors[node] * (a.waiting + a.pending) != {} || c.nodes[node].Provider() in a.busy then b == a
    else Calls(c, node, a.(waiting := a.waiting - {node}), b)
  }

  /** The stages of a pass over the active nodes, which breaks off when the wave is stopped or a node is lost. */
  ghost predicate Pass(c: CompiledGraph, active: seq<string>, stages: seq<Stage>) {
    && 1 <= |stages| <= |active| + 1
    && forall k | 0 < k < |stages| :: Turn(c, active[k - 1], stages[k - 1], stages[k])
  }

  lemma FirstStage(c: CompiledGraph, active: seq<string>, s: Stage)
    ensures Pass(c, active, [s])
  {
  }

  lemma OneMoreTurn(c: CompiledGraph, active: seq<string>, stages: seq<Stage>, s: Stage)
    requires Pass(c, active, stages) && |stages| <= |active| && Turn(c, active[|stages| - 1], stages[|stages| - 1], s)
    ensures Pass(c, active, stages + [s])
  {
    hide Turn;
    var more := stages + [s];
    forall k | 0 < k < |more| ensures Turn(c, active[k - 1], more[k - 1], more[k]) {
      if k < |stages| { assert more[k] == stages[k] && more[k - 1] == stages[k - 1]; }
    }
  }

  // ----- synchronous calls

  /** Where calls are synchronous, a wave starts its nodes in the order that names and edges decide, whatever its
      nodes do. */
  lemma QuietRunByNames(starts: seq<Start>, wave: nat, plan: Graph, i: nat, j: nat)
    requires InNameOrder(starts) && LogOk(starts, wave, plan)
    requires i < |starts| && j < |starts| && i != j && starts[i].wave == starts[j].wave
    ensures var (g, a, b) := (starts[i].plan, starts[i].node, starts[j].node);
      && Complete(g) && a in g && b in g && a != b
      && (i < j <==> Sooner(g, g.Keys, Sorted(g.Keys), a, b))
  {
    hide Sooner, Before, StartOk, NameOrder;
    RunKeepsPaths(starts, wave, plan);
    var (low, high) := if i < j then (i, j) else (j, i);
    assert InLog(starts, high) && ListedBefore(starts[low].plan, starts[low].node, starts[high].node);
    assert starts[..high][low] == starts[low];
    assert starts[low].node in StartedIn(starts[..high], starts[high].wave);
    NameOrderDecides(starts[low].plan, starts[low].node, starts[high].node);
    NameOrderDecides(starts[low].plan, starts[high].node, starts[low].node);
  }

  /** Where calls are synchronous, the two writers of the dormant graph run against the order that compilation found. */
  lemma DormantRunsReversed(starts: seq<Start>, wave: nat, plan: Graph, i: nat, j: nat)
    requires InNameOrder(starts) && LogOk(starts, wave, plan)
    requires i < |starts| && j < |starts| && starts[i].wave == starts[j].wave
    requires starts[i].plan == Restricted(DormantGraph().predecessors, Active(DormantGraph(), {"prompt"}))
    requires starts[i].node == "p/a" && starts[j].node == "p/z"
    ensures i < j && Depends(DormantGraph().predecessors, "p/a", "p/z")
  {
    hide Before, NameOrder, Sooner, Depends, Compiled;
    DormantNodeLosesOrder();
    QuietRunByNames(starts, wave, plan, i, j);
    WriterOrder(DormantGraph(), {"prompt"}, "p/a", "p/z");
  }

  // ----- pending calls

  /** A new wave. */
  ghost function Fresh(active: seq<string>): Stage { Stage(set n | n in active, {}, {}, NO_MARKS, false, {}) }

  /** A turn in which node `slow` stays pending and every other started node succeeds at once. */
  ghost function Next(c: CompiledGraph, slow: string, node: string, s: Stage): Stage
    requires node in c.nodes && node in c.predecessors
  {
    if node !in s.waiting || c.predecessors[node] * (s.waiting + s.pending) != {} || c.nodes[node].Provider() in s.busy
    then s
    else if node == slow then
      s.(waiting := s.waiting - {node}, pending := s.pending + {node}, busy := s.busy + {c.nodes[node].Provider()})
    else s.(waiting := s.waiting - {node}, marks := s.marks.(succeeded := s.marks.succeeded + {node}))
  }

  lemma NextIsTurn(c: CompiledGraph, slow: string, node: string, s: Stage)
    requires node in c.nodes && node in c.predecessors && !s.stopped && s.unsuccessful == {}
    ensures Turn(c, node, s, Next(c, slow, node, s))
  {
    assert c.predecessors[node] * s.unsuccessful == {};
  }

  /** What holds when the turns of `i` nodes have passed. Each node that `b` needs has succeeded on its turn. */
  ghost predicate Going(c: CompiledGraph, g: Graph, active: seq<string>, slow: string, b: string, i: nat, s: Stage)
    requires slow in c.nodes
  {
    && !s.stopped && s.unsuccessful == {} && s.pending <= {slow} && s.busy <= {c.nodes[slow].Provider()}
    && i <= |active| && (forall n | n in s.waiting :: n in active) && (forall n | n in active[i..] :: n in s.waiting)
    && slow !in s.marks.succeeded && s.marks.succeeded !! s.waiting && s.marks.lost == {}
    && forall n | n in active[..i] && Needs(g, b, n) :: n in s.marks.succeeded
  }

  lemma GoesOneOn(c: CompiledGraph, g: Graph, active: seq<string>, slow: string, b: string, i: nat, s: Stage)
    requires (forall n | n in active :: n in c.nodes && n in c.predecessors) && g == Plan(c.predecessors, active)
    requires Topological(g, active) && slow in active && i < |active| && Going(c, g, active, slow, b, i, s)
    requires forall n | Needs(g, b, n) :: n != slow && c.nodes[n].Provider() != c.nodes[slow].Provider()
    ensures Going(c, g, active, slow, b, i + 1, Next(c, slow, active[i], s))
  {
    hide Needs;
    var node := active[i];
    assert active[i..] == [node] + active[i + 1..] && active[..i + 1] == active[..i] + [node];
    assert node in active[i..];
    if Needs(g, b, node) {
      forall p | p in c.predecessors[node] ensures p !in s.waiting && p !in s.pending {
        if p in active {
          assert p in g[node];
          NeedsMore(g, b, node, p);
          assert p in active[..i];
        }
      }
      assert c.predecessors[node] * (s.waiting + s.pending) == {};
    }
    assert forall k | i < k < |active| :: active[k] != active[i];
  }

  lemma NeedsMore(g: Graph, b: string, n: string, p: string)
    requires Complete(g) && Needs(g, b, n) && p in g[n]
    ensures Needs(g, b, p)
  {
    DependsStep(g, b, n, p);
  }

  lemma {:induction false} SlowRun(c: CompiledGraph, g: Graph, active: seq<string>, slow: string, b: string, i: nat)
    returns (stages: seq<Stage>)
    requires (forall n | n in active :: n in c.nodes && n in c.predecessors) && g == Plan(c.predecessors, active)
    requires Topological(g, active) && slow in active && i <= |active|
    requires forall n | Needs(g, b, n) :: n != slow && c.nodes[n].Provider() != c.nodes[slow].Provider()
    ensures Pass(c, active, stages) && |stages| == i + 1 && stages[0] == Fresh(active)
    ensures Going(c, g, active, slow, b, i, stages[i])
  {
    hide Needs, Turn, Topological;
    if i == 0 {
      stages := [Fresh(active)];
      FirstStage(c, active, stages[0]);
    } else {
      stages := SlowRun(c, g, active, slow, b, i - 1);
      GoesOneOn(c, g, active, slow, b, i - 1, stages[i - 1]);
      NextIsTurn(c, slow, active[i - 1], stages[i - 1]);
      OneMoreTurn(c, active, stages, Next(c, slow, active[i - 1], stages[i - 1]));
      stages := stages + [Next(c, slow, active[i - 1], stages[i - 1])];
    }
  }

  /** Without a path inside the active nodes either of two of them may finish first. If `b` does not come after `a`,
      and neither `b` nor any node that it comes after has the provider of `a`, then `b` can succeed in the first
      pass while `a` does not: whatever the order of their names, and whatever order compilation found. */
  lemma EitherMayFinishFirst(c: CompiledGraph, triggers: set<string>, a: string, b: string) returns (stages: seq<Stage>)
    requires Compiled(c) && a in Active(c, triggers) && b in Active(c, triggers) && a != b
    requires var g := Restricted(c.predecessors, Active(c, triggers));
      && !Depends(g, b, a)
      && forall n | n in g && Needs(g, b, n) :: c.nodes[n].Provider() != c.nodes[a].Provider()
    ensures var g := Restricted(c.predecessors, Active(c, triggers));
      NameOrder(g).Ok? && Pass(c, NameOrder(g).value, stages) && stages[0] == Fresh(NameOrder(g).value)
    ensures var end := stages[|stages| - 1].marks; b in end.succeeded && a !in end.succeeded && a !in end.lost
  {
    hide Topological, Depends, Pass, NameOrder, Needs, Going, Compiled, Plan, Sooner, Before, Fresh;
    NodesOfGraph(c);
    var g := Restricted(c.predecessors, Active(c, triggers));
    WriterOrder(c, triggers, a, b);
    NameOrderSound(g);
    var active := NameOrder(g).value;
    ListsThePlan(c.predecessors, Active(c, triggers), active);
    forall n | Needs(g, b, n) ensures n in g && n != a { NeededIsFree(g, a, b, n); }
    stages := SlowRun(c, g, active, a, b, |active|);
    NeedsItself(g, b);
    GoneThrough(c, g, active, a, b, stages[|active|]);
  }

  lemma NeededIsFree(g: Graph, a: string, b: string, n: string)
    requires Needs(g, b, n) && a != b && !Depends(g, b, a)
    ensures n in g && n != a
  {
    hide Depends;
  }

  lemma GoneThrough(c: CompiledGraph, g: Graph, active: seq<string>, slow: string, b: string, s: Stage)
    requires slow in c.nodes && Going(c, g, active, slow, b, |active|, s) && b in active && Needs(g, b, b)
    ensures b in s.marks.succeeded && slow !in s.marks.succeeded && slow !in s.marks.lost
  {
    hide Needs;
    assert active[..|active|] == active;
  }

  lemma ListsThePlan(g: Graph, part: set<string>, active: seq<string>)
    requires part <= g.Keys && Topological(Restricted(g, part), active)
    ensures (forall n :: n in active <==> n in part) && Plan(g, active) == Restricted(g, part)
  {
    forall n | n in active ensures n in part { assert n in Restricted(g, part); }
    assert (set n | n in active) == part;
  }

  // ----- the order of writers is lost behind a busy provider

  /** Two writers of one cell, "p/m" and "p/z", that a path through the dormant node "p/d" orders; "p/a" has the
      provider of "p/m". */
  function BusyGraph(): CompiledGraph {
    var w, x, y := Prepared.Selection("i@1", "run", "w"), Prepared.Selection("i@1", "run", "x"),
                   Prepared.Selection("i@1", "run", "y");
    var nodes := map[
      "p/a" := Node("p", w, ["prompt"], {}, {}, FailRoot),
      "p/m" := Node("p", w, ["prompt"], {}, {"p/cell"}, FailRoot),
      "p/d" := Node("p", y, ["other"], {"p/m"}, {}, FailRoot),
      "p/z" := Node("p", x, ["prompt"], {"p/d"}, {"p/cell"}, FailRoot)];
    CompiledGraph(nodes, {"prompt", "other"}, PredecessorsOf(nodes), ["p/a", "p/m", "p/d", "p/z"])
  }

  lemma BusyIsOrdered()
    ensures var c := BusyGraph();
      && c.predecessors == map["p/a" := {}, "p/m" := {}, "p/d" := {"p/m"}, "p/z" := {"p/d"}]
      && Complete(c.predecessors) && Topological(c.predecessors, c.order) && Depends(c.predecessors, "p/z", "p/m")
  {
    hide Complete, Topological, Depends;
    var g := BusyGraph().predecessors;
    assert g == map["p/a" := {}, "p/m" := {}, "p/d" := {"p/m"}, "p/z" := {"p/d"}];
    ChainBesideOne("p/a", "p/m", "p/d", "p/z");
  }

  /** Three nodes in a chain beside a free one are ordered. */
  lemma ChainBesideOne(a: string, b: string, c: string, d: string)
    requires Distinct([a, b, c, d])
    ensures var g: Graph := map[a := {}, b := {}, c := {b}, d := {c}];
      Complete(g) && Topological(g, [a, b, c, d]) && Depends(g, d, b)
  {
    var g: Graph := map[a := {}, b := {}, c := {b}, d := {c}];
    var all := [a, b, c, d];
    assert all[0] != all[1] && all[0] != all[2] && all[0] != all[3];
    assert all[1] != all[2] && all[1] != all[3] && all[2] != all[3];
    assert Walk(g, [d, c, b]);
    assert all[..2] == [a, b] && all[..3] == [a, b, c];
  }

  lemma BusyCompiles()
    ensures Compiled(BusyGraph()) && Active(BusyGraph(), {"prompt"}) == {"p/a", "p/m", "p/z"}
  {
    hide StateChange, Topological, Depends, Complete;
    var c := BusyGraph();
    BusyIsOrdered();
    forall id, t | id in c.nodes && t in c.nodes[id].triggers ensures Triggered(c.events, t) {
      assert t == "prompt" || t == "other";
    }
    forall a, b, property | a in c.nodes && b in c.nodes && a != b
                            && property in c.nodes[a].writes && property in c.nodes[b].writes
      ensures PairOrdered(c.predecessors, a, b)
    {
      assert a == "p/m" || a == "p/z";
      assert b == "p/m" || b == "p/z";
    }
    assert "prompt" in c.nodes["p/a"].triggers && "prompt" in c.nodes["p/m"].triggers;
    assert "prompt" in c.nodes["p/z"].triggers && c.nodes["p/d"].triggers == ["other"];
  }

  /** The names of three nodes without edges list them. */
  lemma ListedByName()
    ensures var g: Graph := map["p/a" := {}, "p/m" := {}, "p/z" := {}];
      NameOrder(g) == Ok(["p/a", "p/m", "p/z"])
  {
    hide NameOrder, Ordered, Precedes, Depends, Walk;
    var g: Graph := map["p/a" := {}, "p/m" := {}, "p/z" := {}];
    NameOrderSound(g);
    NoCycleWithoutEdges(g);
    var order := NameOrder(g).value;
    ThreeByName();
    FreeListedByName(g, "p/a", "p/m");
    FreeListedByName(g, "p/m", "p/z");
    NodesOnly(g, order);
    ThreeInOrder(order, "p/a", "p/m", "p/z");
  }

  /** Which orders occur in a wave of that graph with pending calls. The list has "p/m" before "p/z". In the first pass
      "p/a" stays pending, its provider is busy, and "p/z" starts and succeeds while "p/m" waits. In the second pass
      everything succeeds at once, and "p/z" starts after "p/m" has succeeded. */
  lemma BusyProviderLosesOrder() returns (early: seq<Stage>, late: seq<Stage>)
    ensures var c := BusyGraph();
      && Compiled(c) && Depends(c.predecessors, "p/z", "p/m")
      && c.nodes["p/m"].writes == c.nodes["p/z"].writes == {"p/cell"}
      && Active(c, {"prompt"}) == {"p/a", "p/m", "p/z"}
    ensures NameOrder(Restricted(BusyGraph().predecessors, Active(BusyGraph(), {"prompt"}))) ==
      Ok(["p/a", "p/m", "p/z"])
    ensures Pass(BusyGraph(), ["p/a", "p/m", "p/z"], early) && Pass(BusyGraph(), ["p/a", "p/m", "p/z"], late)
    ensures |early| == |late| == 4 && early[0] == late[0] == Fresh(["p/a", "p/m", "p/z"])
    ensures early[3].waiting == {"p/m"} && early[3].pending == {"p/a"} && early[3].marks.succeeded == {"p/z"}
    ensures late[2].waiting == {"p/z"} && late[2].marks.succeeded == {"p/a", "p/m"}
    ensures late[3].marks.succeeded == {"p/a", "p/m", "p/z"}
  {
    hide Compiled, Depends, Pass, NameOrder, Turn;
    var c, active := BusyGraph(), ["p/a", "p/m", "p/z"];
    BusyCompiles();
    BusyIsOrdered();
    ListedByName();
    var g := Restricted(c.predecessors, Active(c, {"prompt"}));
    assert g == map["p/a" := {}, "p/m" := {}, "p/z" := {}] by {
      assert {"p/d"} * {"p/a", "p/m", "p/z"} == {};
    }
    early := EarlyPass();
    late := LatePass();
  }

  /** Three turns make a pass. */
  lemma ThreeTurns(c: CompiledGraph, slow: string, s0: Stage, s1: Stage, s2: Stage, s3: Stage, active: seq<string>)
    requires |active| == 3 && (forall n | n in active :: n in c.nodes && n in c.predecessors)
    requires s0 == Fresh(active) && s1 == Next(c, slow, active[0], s0)
    requires s2 == Next(c, slow, active[1], s1) && s3 == Next(c, slow, active[2], s2)
    ensures Pass(c, active, [s0, s1, s2, s3])
  {
    hide Turn;
    NextIsTurn(c, slow, active[0], s0);
    NextIsTurn(c, slow, active[1], s1);
    NextIsTurn(c, slow, active[2], s2);
  }

  /** The pass over that wave in which "p/a" stays pending. */
  lemma EarlyPass() returns (stages: seq<Stage>)
    ensures Pass(BusyGraph(), ["p/a", "p/m", "p/z"], stages) && |stages| == 4
    ensures stages[0] == Fresh(["p/a", "p/m", "p/z"])
    ensures stages[3].waiting == {"p/m"} && stages[3].pending == {"p/a"} && stages[3].marks.succeeded == {"p/z"}
  {
    hide Pass, Topological, Complete, Depends;
    var c, active := BusyGraph(), ["p/a", "p/m", "p/z"];
    BusyIsOrdered();
    var s0 := Fresh(active);
    assert s0.waiting == {"p/a", "p/m", "p/z"};
    var s1 := s0.(waiting := {"p/m", "p/z"}, pending := {"p/a"}, busy := {"w"});
    assert s0.waiting - {"p/a"} == {"p/m", "p/z"};
    assert s1 == Next(c, "p/a", "p/a", s0);
    assert s1 == Next(c, "p/a", "p/m", s1);
    var s3 := s1.(waiting := {"p/m"}, marks := NO_MARKS.(succeeded := {"p/z"}));
    assert c.predecessors["p/z"] * (s1.waiting + s1.pending) == {} && s1.waiting - {"p/z"} == {"p/m"};
    assert s3 == Next(c, "p/a", "p/z", s1);
    ThreeTurns(c, "p/a", s0, s1, s1, s3, active);
    stages := [s0, s1, s1, s3];
  }

  /** The pass over that wave in which everything succeeds at once. */
  lemma LatePass() returns (stages: seq<Stage>)
    ensures Pass(BusyGraph(), ["p/a", "p/m", "p/z"], stages) && |stages| == 4
    ensures stages[0] == Fresh(["p/a", "p/m", "p/z"])
    ensures stages[2].waiting == {"p/z"} && stages[2].marks.succeeded == {"p/a", "p/m"}
    ensures stages[3].marks.succeeded == {"p/a", "p/m", "p/z"}
  {
    hide Pass, Topological, Complete, Depends;
    var c, active := BusyGraph(), ["p/a", "p/m", "p/z"];
    BusyIsOrdered();
    var s0 := Fresh(active);
    assert s0.waiting == {"p/a", "p/m", "p/z"};
    var s1 := s0.(waiting := {"p/m", "p/z"}, marks := NO_MARKS.(succeeded := {"p/a"}));
    assert s0.waiting - {"p/a"} == {"p/m", "p/z"};
    assert s1 == Next(c, "", "p/a", s0);
    var s2 := s1.(waiting := {"p/z"}, marks := NO_MARKS.(succeeded := {"p/a", "p/m"}));
    assert s1.waiting - {"p/m"} == {"p/z"};
    assert s2 == Next(c, "", "p/m", s1);
    var s3 := s2.(waiting := {}, marks := NO_MARKS.(succeeded := {"p/a", "p/m", "p/z"}));
    assert c.predecessors["p/z"] * (s2.waiting + s2.pending) == {} && s2.waiting - {"p/z"} == {};
    assert s3 == Next(c, "", "p/z", s2);
    ThreeTurns(c, "", s0, s1, s2, s3, active);
    stages := [s0, s1, s2, s3];
  }

  lemma NoCycleWithoutEdges(g: Graph)
    requires forall n | n in g :: g[n] == {}
    ensures forall c :: !Cycle(g, c)
  {
    forall c ensures !Cycle(g, c) {
      if |c| >= 2 && forall i | 0 <= i < |c| :: c[i] in g { NoStep(g, c); }
    }
  }

  lemma NoStep(g: Graph, c: seq<string>)
    requires (forall n | n in g :: g[n] == {}) && |c| >= 2 && forall i | 0 <= i < |c| :: c[i] in g
    ensures !Walk(g, c)
  {
    assert c[1] !in g[c[0]];
  }

  lemma {:induction false} FreeListedByName(g: Graph, a: string, b: string)
    requires Complete(g) && (forall n | n in g :: g[n] == {}) && a in g && b in g && a != b && NameOrder(g).Ok?
    ensures Before(NameOrder(g).value, a, b) <==> Precedes(a, b)
  {
    hide Sooner, Before, Needs;
    forall n, x | n in g && Needs(g, n, x) ensures n == x { NothingNeeded(g, n, x); }
    NeedsItself(g, a);
    NeedsItself(g, b);
    NameOrderDecides(g, a, b);
    SoonerByName(g, g.Keys, Sorted(g.Keys), a, b);
  }

  lemma NeedsItself(g: Graph, n: string)
    requires n in g
    ensures Needs(g, n, n)
  {
  }

  lemma NodesOnly(g: Graph, order: seq<string>)
    requires Topological(g, order)
    ensures Distinct(order) && forall n :: n in order <==> n in g
  {
  }

  lemma ThreeInOrder(order: seq<string>, a: string, b: string, c: string)
    requires Distinct(order) && (forall n :: n in order <==> n == a || n == b || n == c)
    requires Before(order, a, b) && Before(order, b, c)
    ensures order == [a, b, c]
  {
    var i, j :| 0 <= i < j < |order| && order[i] == a && order[j] == b;
    var k, l :| 0 <= k < l < |order| && order[k] == b && order[l] == c;
    assert j == k;
    DistinctSize(order, {a, b, c});
    assert |{a, b, c}| == 3;
  }

  lemma ThreeByName()
    ensures Precedes("p/a", "p/m") && Precedes("p/m", "p/z")
  {
    assert "p/a"[1..] == "/a" && "p/m"[1..] == "/m" && "p/z"[1..] == "/z";
    assert "/a"[1..] == "a" && "/m"[1..] == "m" && "/z"[1..] == "z";
  }
}
