/** Which of two nodes a projection puts first, and what becomes of the order of two writers. */
module NameOrders {
  import opened Wrappers
  import Prepared
  import opened Dag
  import opened Graphs

  /** Node `x` is `n`, or `n` comes after it. */
  ghost predicate Needs(g: Graph, n: string, x: string) { n in g && x in g && (n == x || Depends(g, n, x)) }

  /** Among the nodes `ids`, taken in turn, the first that needs `a` or `b` decides: if it needs one of
      them, that one is sooner; if it is one of them and needs the other, the other is; and if it needs both,
      its own dependencies decide, taken by name. `left` holds the nodes that have not decided yet. */
  ghost predicate Sooner(g: Graph, left: set<string>, ids: seq<string>, a: string, b: string)
    decreases |left|, |ids|
  {
    if ids == [] then false
    else
      var n := ids[0];
      if !Needs(g, n, a) && !Needs(g, n, b) then Sooner(g, left, ids[1..], a, b)
      else if !Needs(g, n, b) then true
      else if !Needs(g, n, a) || n == a || n !in left then false
      else n == b || Sooner(g, left - {n}, Sorted(g[n]), a, b)
  }

  // ----- what has been finished

  lemma {:induction false} OrderedIsClosed(g: Graph, done: seq<string>, p: seq<string>)
    requires Ordered(g, done) && Walk(g, p) && |p| >= 1 && p[0] in done
    ensures p[|p| - 1] in done
    decreases |p|
  {
    if |p| > 1 {
      var i :| 0 <= i < |done| && done[i] == p[0];
      assert p[1] in done[..i];
      assert forall k | 0 < k < |p[1..]| :: p[1..][k] == p[k + 1];
      OrderedIsClosed(g, done, p[1..]);
    }
  }

  lemma NeededIsDone(g: Graph, done: seq<string>, n: string, x: string)
    requires Ordered(g, done) && n in done && Needs(g, n, x)
    ensures x in done
  {
    if n != x {
      var p :| Walk(g, p) && |p| >= 2 && p[0] == n && p[|p| - 1] == x;
      OrderedIsClosed(g, done, p);
    }
  }

  /** A node needs itself and what its dependencies need. */
  lemma NeedsUnfolds(g: Graph, n: string, x: string)
    requires Complete(g) && n in g
    ensures Needs(g, n, x) <==> n == x || exists d :: d in g[n] && Needs(g, d, x)
  {
    if Needs(g, n, x) && n != x {
      var p :| Walk(g, p) && |p| >= 2 && p[0] == n && p[|p| - 1] == x;
      assert p[1] in g[p[0]];
      if |p| > 2 {
        assert forall k | 0 < k < |p[1..]| :: p[1..][k] == p[k + 1];
        assert Walk(g, p[1..]);
      }
      assert Needs(g, p[1], x);
    }
    if d :| d in g[n] && Needs(g, d, x) {
      if d == x {
        assert Walk(g, [n, x]);
      } else {
        var p :| Walk(g, p) && |p| >= 2 && p[0] == d && p[|p| - 1] == x;
        assert Walk(g, [n] + p);
      }
    }
  }

  // ----- the search finishes exactly what is needed

  ghost predicate Adds(g: Graph, done: seq<string>, more: seq<string>, n: string) {
    forall x :: x in more <==> x in done || Needs(g, n, x)
  }

  ghost predicate AddsAll(g: Graph, done: seq<string>, more: seq<string>, ids: seq<string>) {
    forall x :: x in more <==> x in done || exists n :: n in ids && Needs(g, n, x)
  }

  lemma {:induction false} AfterAdds(g: Graph, done: seq<string>, path: seq<string>, id: string)
    requires Searching(g, done, path) && id in g && (path != [] ==> id in g[path[|path| - 1]])
    requires After(g, done, path, id).Ok?
    ensures Adds(g, done, After(g, done, path, id).value, id)
    decreases |g.Keys| - |path|, 1, 0
  {
    hide Ordered, Walk, Needs;
    var more := After(g, done, path, id).value;
    AfterSound(g, done, path, id);
    if id in done {
      forall x | Needs(g, id, x) ensures x in done { NeededIsDone(g, done, id, x); }
    } else {
      PathFits(g, path, id);
      PathGrows(g, path, id);
      var longer := path + [id];
      assert longer[|longer| - 1] == id;
      AfterAllAdds(g, done, longer, Sorted(g[id]));
      forall x ensures x in more <==> x in done || Needs(g, id, x) { NeedsUnfolds(g, id, x); }
    }
  }

  lemma {:induction false} AfterAllAdds(g: Graph, done: seq<string>, path: seq<string>, ids: seq<string>)
    requires Searching(g, done, path) && |path| <= |g.Keys|
    requires forall n | n in ids :: n in g && (path != [] ==> n in g[path[|path| - 1]])
    requires AfterAll(g, done, path, ids).Ok?
    ensures AddsAll(g, done, AfterAll(g, done, path, ids).value, ids)
    decreases |g.Keys| - |path|, 2, |ids|
  {
    hide Ordered, Walk, Needs;
    if ids != [] {
      assert ids[0] in ids && forall n | n in ids[1..] :: n in ids;
      AfterSound(g, done, path, ids[0]);
      AfterAdds(g, done, path, ids[0]);
      var more := After(g, done, path, ids[0]).value;
      AfterAllAdds(g, more, path, ids[1..]);
      forall x ensures (exists n :: n in ids && Needs(g, n, x)) <==>
                       Needs(g, ids[0], x) || exists n :: n in ids[1..] && Needs(g, n, x)
      {
        if n :| n in ids && Needs(g, n, x) && n != ids[0] { assert n in ids[1..]; }
      }
    }
  }

  // ----- which comes first

  lemma BeforeInPrefix(part: seq<string>, whole: seq<string>, a: string, b: string)
    requires part <= whole && Distinct(whole) && b in part
    ensures Before(whole, a, b) <==> Before(part, a, b)
  {
    var k :| 0 <= k < |part| && part[k] == b;
    if i, j :| 0 <= i < j < |whole| && whole[i] == a && whole[j] == b {
      assert whole[k] == b && j == k;
      assert part[i] == a && part[j] == b;
    }
    if i, j :| 0 <= i < j < |part| && part[i] == a && part[j] == b {
      assert whole[i] == a && whole[j] == b;
    }
  }

  lemma BeforeAcross(part: seq<string>, whole: seq<string>, a: string, b: string)
    requires part <= whole && Distinct(whole) && a in part && b in whole && b !in part
    ensures Before(whole, a, b) && !Before(whole, b, a)
  {
    var i :| 0 <= i < |part| && part[i] == a;
    var j :| 0 <= j < |whole| && whole[j] == b;
    assert whole[i] == a;
    assert forall k | 0 <= k < |part| :: whole[k] == part[k] && part[k] in part;
    forall x, y | 0 <= x < y < |whole| && whole[x] == b ensures whole[y] != a {
      assert x == j;
    }
  }

  lemma OrderedIsDistinct(g: Graph, s: seq<string>)
    requires Ordered(g, s)
    ensures Distinct(s)
  {
  }

  /** The first node in turn that needs one of the two decides. */
  lemma {:induction false} SoonerIsBefore(g: Graph, done: seq<string>, path: seq<string>, ids: seq<string>,
                                          left: set<string>, a: string, b: string)
    requires Searching(g, done, path) && |path| <= |g.Keys|
    requires forall n | n in ids :: n in g && (path != [] ==> n in g[path[|path| - 1]])
    requires AfterAll(g, done, path, ids).Ok? && forall n | n in g && n !in path :: n in left
    requires a != b && a !in done && b !in done
    requires a in AfterAll(g, done, path, ids).value && b in AfterAll(g, done, path, ids).value
    ensures Before(AfterAll(g, done, path, ids).value, a, b) <==> Sooner(g, left, ids, a, b)
    decreases |g.Keys| - |path|, |ids|
  {
    hide Ordered, Walk, Needs, Before, Depends;
    var all := AfterAll(g, done, path, ids).value;
    assert ids != [];
    var n := ids[0];
    assert n in ids && forall m | m in ids[1..] :: m in ids;
    AfterAllSound(g, done, path, ids);
    AfterSound(g, done, path, n);
    AfterAdds(g, done, path, n);
    var more := After(g, done, path, n).value;
    AfterAllSound(g, more, path, ids[1..]);
    OrderedIsDistinct(g, all);
    if !Needs(g, n, a) && !Needs(g, n, b) {
      SoonerIsBefore(g, more, path, ids[1..], left, a, b);
    } else if !Needs(g, n, b) {
      BeforeAcross(more, all, a, b);
    } else if !Needs(g, n, a) {
      BeforeAcross(more, all, b, a);
    } else {
      BothNeeded(g, done, path, n, left, a, b);
      BeforeInPrefix(more, all, a, b);
    }
  }

  lemma {:induction false} BothNeeded(g: Graph, done: seq<string>, path: seq<string>, n: string, left: set<string>,
                                      a: string, b: string)
    requires Searching(g, done, path) && n in g && (path != [] ==> n in g[path[|path| - 1]])
    requires After(g, done, path, n).Ok? && forall m | m in g && m !in path :: m in left
    requires a != b && a !in done && b !in done && Needs(g, n, a) && Needs(g, n, b)
    ensures n in left
    ensures Before(After(g, done, path, n).value, a, b) <==>
      n != a && (n == b || Sooner(g, left - {n}, Sorted(g[n]), a, b))
    decreases |g.Keys| - |path|, 0
  {
    hide Ordered, Walk, Needs, Before, Depends;
    var more := After(g, done, path, n).value;
    if n in done {
      NeededIsDone(g, done, n, a);
      assert false;
    }
    PathFits(g, path, n);
    PathGrows(g, path, n);
    var longer := path + [n];
    assert longer[|longer| - 1] == n && n in longer;
    AfterAllSound(g, done, longer, Sorted(g[n]));
    AfterAllAdds(g, done, longer, Sorted(g[n]));
    AfterSound(g, done, path, n);
    var front := AfterAll(g, done, longer, Sorted(g[n])).value;
    OrderedIsDistinct(g, more);
    NeedsUnfolds(g, n, a);
    NeedsUnfolds(g, n, b);
    if n == a {
      BeforeAcross(front, more, b, a);
    } else if n == b {
      BeforeAcross(front, more, a, b);
    } else {
      assert forall m | m in g && m !in longer :: m in left - {n};
      SoonerIsBefore(g, done, longer, Sorted(g[n]), left - {n}, a, b);
      BeforeInPrefix(front, more, a, b);
    }
  }

  /** The order of two nodes in the order by names. */
  lemma {:induction false} NameOrderDecides(g: Graph, a: string, b: string)
    requires Complete(g) && NameOrder(g).Ok? && a in g && b in g && a != b
    ensures Before(NameOrder(g).value, a, b) <==> Sooner(g, g.Keys, Sorted(g.Keys), a, b)
    ensures Before(NameOrder(g).value, a, b) <==> !Before(NameOrder(g).value, b, a)
  {
    hide Sooner, Before;
    var order := NameOrder(g).value;
    NameOrderSound(g);
    AfterAllSound(g, [], [], Sorted(g.Keys));
    assert a in order && b in order;
    SoonerIsBefore(g, [], [], Sorted(g.Keys), g.Keys, a, b);
    OneIsBefore(order, a, b);
  }

  lemma OneIsBefore(order: seq<string>, a: string, b: string)
    requires Distinct(order) && a in order && b in order && a != b
    ensures Before(order, a, b) <==> !Before(order, b, a)
  {
    var i :| 0 <= i < |order| && order[i] == a;
    var j :| 0 <= j < |order| && order[j] == b;
    if i < j { assert Before(order, a, b); } else { assert Before(order, b, a); }
  }

  /** Two nodes that no other node needs are ordered by their names. */
  lemma {:induction false} SoonerByName(g: Graph, left: set<string>, ids: seq<string>, a: string, b: string)
    requires Ascending(ids) && a in ids && b in ids && a != b && a in g && b in g
    requires forall n | n in ids :: (Needs(g, n, a) <==> n == a) && (Needs(g, n, b) <==> n == b)
    ensures Sooner(g, left, ids, a, b) <==> Precedes(a, b)
    decreases |ids|
  {
    hide Needs, Depends;
    var n := ids[0];
    assert n in ids && forall m | m in ids[1..] :: m in ids;
    if n == a {
      var j :| 0 <= j < |ids| && ids[j] == b;
      assert Precedes(ids[0], ids[j]);
    } else if n == b {
      var i :| 0 <= i < |ids| && ids[i] == a;
      assert Precedes(ids[0], ids[i]);
      if Precedes(a, b) {
        PrecedesTransitive(a, b, a);
        PrecedesIrreflexive(a);
      }
    } else {
      assert a in ids[1..] && b in ids[1..];
      SoonerByName(g, left, ids[1..], a, b);
    }
  }

  // ----- writers

  /** Two active writers are listed in the order of `a` before `b` exactly when `a` is sooner by the names and edges
      of the active nodes. Compilation has ordered them by any dependency path. A path inside the active nodes
      keeps that order; a path through other nodes plays no part. */
  lemma {:induction false} WriterOrder(c: CompiledGraph, triggers: set<string>, a: string, b: string)
    requires Compiled(c) && a in Active(c, triggers) && b in Active(c, triggers) && a != b
    ensures var g := Restricted(c.predecessors, Active(c, triggers));
      && NameOrder(g).Ok?
      && (Before(NameOrder(g).value, a, b) <==> Sooner(g, g.Keys, Sorted(g.Keys), a, b))
      && (Before(NameOrder(g).value, a, b) <==> !Before(NameOrder(g).value, b, a))
      && (Depends(g, b, a) ==> Before(NameOrder(g).value, a, b))
  {
    hide Sooner, Before, Compiled, Depends, Topological, Cycle;
    NodesOfGraph(c);
    var g := Restricted(c.predecessors, Active(c, triggers));
    assert a in g && b in g;
    NameOrderSound(g);
    if NameOrder(g).Err? { StillNoCycle(c, Active(c, triggers), NameOrder(g).error); }
    NameOrderDecides(g, a, b);
    if Depends(g, b, a) { ActivePathKeepsOrder(g, NameOrder(g).value, a, b); }
  }

  lemma NodesOfGraph(c: CompiledGraph)
    requires Compiled(c)
    ensures c.predecessors.Keys == c.nodes.Keys && Complete(c.predecessors)
  {
  }

  /** Writers that no other active node needs are listed in the order of their names, whatever compilation found. */
  lemma {:induction false} FreeWritersListedByName(c: CompiledGraph, triggers: set<string>, a: string, b: string)
    requires Compiled(c) && a in Active(c, triggers) && b in Active(c, triggers) && a != b
    requires var g := Restricted(c.predecessors, Active(c, triggers));
      forall n | n in g :: (Needs(g, n, a) ==> n == a) && (Needs(g, n, b) ==> n == b)
    ensures var g := Restricted(c.predecessors, Active(c, triggers));
      NameOrder(g).Ok? && (Before(NameOrder(g).value, a, b) <==> Precedes(a, b))
  {
    hide Sooner, Before, Compiled, Depends;
    NodesOfGraph(c);
    var g := Restricted(c.predecessors, Active(c, triggers));
    WriterOrder(c, triggers, a, b);
    SoonerByName(g, g.Keys, Sorted(g.Keys), a, b);
  }

  // ----- the order of writers is lost through a dormant node

  /** Three nodes in a chain, each with its own provider; the first and the last write the same cell, and the
      one between them has another trigger. The later writer has the smaller name. */
  function DormantGraph(): CompiledGraph {
    var nodes := map[
      "p/z" := Node("p", Prepared.Selection("i@1", "run", "x"), ["prompt"], {}, {"p/cell"}, FailRoot),
      "p/m" := Node("p", Prepared.Selection("i@1", "run", "y"), ["other"], {"p/z"}, {}, FailRoot),
      "p/a" := Node("p", Prepared.Selection("i@1", "run", "w"), ["prompt"], {"p/m"}, {"p/cell"}, FailRoot)];
    CompiledGraph(nodes, {"prompt", "other"}, PredecessorsOf(nodes), ["p/z", "p/m", "p/a"])
  }

  /** A chain of three nodes is ordered, and the last depends on the first. */
  lemma ChainIsOrdered(a: string, b: string, c: string)
    requires a != b && b != c && a != c
    ensures var g: Graph := map[a := {}, b := {a}, c := {b}];
      Complete(g) && Topological(g, [a, b, c]) && Depends(g, c, a)
  {
    var g: Graph := map[a := {}, b := {a}, c := {b}];
    assert Walk(g, [c, b, a]);
    assert [a, b, c][..1] == [a] && [a, b, c][..2] == [a, b];
  }

  lemma DormantIsOrdered()
    ensures var c := DormantGraph();
      && c.predecessors == map["p/z" := {}, "p/m" := {"p/z"}, "p/a" := {"p/m"}]
      && Complete(c.predecessors) && Topological(c.predecessors, c.order) && Depends(c.predecessors, "p/a", "p/z")
  {
    hide Complete, Topological, Depends;
    var g := DormantGraph().predecessors;
    assert g == map["p/z" := {}, "p/m" := {"p/z"}, "p/a" := {"p/m"}];
    ChainIsOrdered("p/z", "p/m", "p/a");
  }

  lemma DormantCompiles()
    ensures Compiled(DormantGraph())
  {
    hide StateChange, Topological, Depends, Complete;
    var c := DormantGraph();
    DormantIsOrdered();
    forall id, t | id in c.nodes && t in c.nodes[id].triggers ensures Triggered(c.events, t) {
      assert t == "prompt" || t == "other";
    }
    forall a, b, property | a in c.nodes && b in c.nodes && a != b
                            && property in c.nodes[a].writes && property in c.nodes[b].writes
      ensures PairOrdered(c.predecessors, a, b)
    {
      assert a != "p/m" && b != "p/m";
    }
  }

  /** Two writers ordered only through a dormant node lose that order: the graph compiles, with "p/a" after
      "p/z", and a prompt lists "p/a" first. */
  lemma DormantNodeLosesOrder()
    ensures var c := DormantGraph();
      && Compiled(c) && Depends(c.predecessors, "p/a", "p/z")
      && c.nodes["p/z"].writes == c.nodes["p/a"].writes == {"p/cell"}
      && c.nodes["p/z"].Provider() != c.nodes["p/a"].Provider()
      && Active(c, {"prompt"}) == {"p/z", "p/a"}
    ensures var g := Restricted(DormantGraph().predecessors, Active(DormantGraph(), {"prompt"}));
      NameOrder(g).Ok? && Before(NameOrder(g).value, "p/a", "p/z") && !Before(NameOrder(g).value, "p/z", "p/a")
  {
    hide Compiled, Topological, Complete, Sooner, Before;
    var c := DormantGraph();
    DormantCompiles();
    DormantIsOrdered();
    assert "prompt" in c.nodes["p/z"].triggers && "prompt" in c.nodes["p/a"].triggers;
    assert c.nodes["p/m"].triggers == ["other"];
    assert Active(c, {"prompt"}) == {"p/z", "p/a"};
    var g := Restricted(c.predecessors, Active(c, {"prompt"}));
    assert {"p/m"} * {"p/z", "p/a"} == {};
    assert g == map["p/z" := {}, "p/a" := {}];
    forall n, x | n in g && Needs(g, n, x) ensures n == x { NothingNeeded(g, n, x); }
    ByName();
    FreeWritersListedByName(c, {"prompt"}, "p/a", "p/z");
    WriterOrder(c, {"prompt"}, "p/a", "p/z");
  }

  lemma NothingNeeded(g: Graph, n: string, x: string)
    requires Complete(g) && n in g && g[n] == {} && Needs(g, n, x)
    ensures n == x
  {
    NeedsUnfolds(g, n, x);
  }

  lemma ByName()
    ensures Precedes("p/a", "p/z")
  {
    assert "p/a"[1..] == "/a" && "p/z"[1..] == "/z" && "/a"[1..] == "a" && "/z"[1..] == "z";
  }
}
