/** Depth-first ordering of a dependency graph, in the order of names. */
module Dag {
  import opened Wrappers

  /** For each node, the nodes it depends on. */
  type Graph = map<string, set<string>>

  /** Every dependency is a node. */
  predicate Complete(g: Graph) { forall n, d | n in g && d in g[n] :: d in g }

  predicate Distinct(s: seq<string>) { forall i, j | 0 <= i < j < |s| :: s[i] != s[j] }

  /** Each node of `p` depends on the next one. */
  predicate Walk(g: Graph, p: seq<string>) {
    && (forall i | 0 <= i < |p| :: p[i] in g)
    && (forall i | 0 < i < |p| :: p[i] in g[p[i - 1]])
  }

  /** A closed walk. */
  predicate Cycle(g: Graph, c: seq<string>) { |c| >= 2 && c[0] == c[|c| - 1] && Walk(g, c) }

  /** No node is listed twice, and dependencies come first. */
  predicate Ordered(g: Graph, order: seq<string>) {
    && Distinct(order)
    && (forall i | 0 <= i < |order| :: order[i] in g && forall d | d in g[order[i]] :: d in order[..i])
  }

  /** ... and every node is listed. */
  predicate Topological(g: Graph, order: seq<string>) {
    Ordered(g, order) && forall n | n in g :: n in order
  }

  lemma {:induction false} DistinctSize(s: seq<string>, all: set<string>)
    requires Distinct(s) && forall x | x in s :: x in all
    ensures |s| <= |all|
  {
    if s != [] {
      var last := s[|s| - 1];
      forall x | x in s[..|s| - 1] ensures x in all - {last} {
        var i :| 0 <= i < |s| - 1 && s[i] == x;
      }
      DistinctSize(s[..|s| - 1], all - {last});
    }
  }

  lemma EarlierStays(g: Graph, order: seq<string>, n: string)
    requires Ordered(g, order) && n !in order && n in g && forall d | d in g[n] :: d in order
    ensures Ordered(g, order + [n])
  {
    var next := order + [n];
    forall i | 0 <= i < |next| ensures next[i] in g && forall d | d in g[next[i]] :: d in next[..i] {
      assert next[..i] == if i < |order| then order[..i] else order;
    }
  }

  /** Along a walk the positions in an order strictly decrease. */
  lemma {:induction false} WalkDescends(g: Graph, order: seq<string>, p: seq<string>, at: nat) returns (to: nat)
    requires Ordered(g, order) && Walk(g, p) && |p| >= 2 && at < |order| && order[at] == p[0]
    ensures to < at && order[to] == p[|p| - 1]
    decreases |p|
  {
    assert p[1] in g[p[0]] && p[1] in order[..at];
    var k :| 0 <= k < at && order[k] == p[1];
    if |p| == 2 {
      to := k;
    } else {
      assert forall i | 0 < i < |p[1..]| :: p[1..][i] == p[i + 1];
      to := WalkDescends(g, order, p[1..], k);
    }
  }

  /** A graph that can be ordered has no cycle. */
  lemma OrderedHasNoCycle(g: Graph, order: seq<string>, c: seq<string>)
    requires Topological(g, order)
    ensures !Cycle(g, c)
  {
    if Walk(g, c) && |c| >= 2 {
      assert c[0] in order;
      var at :| 0 <= at < |order| && order[at] == c[0];
      var to := WalkDescends(g, order, c, at);
    }
  }

  lemma CycleFound(g: Graph, path: seq<string>, at: nat)
    requires Walk(g, path) && at < |path| && path[at] in g[path[|path| - 1]]
    ensures Cycle(g, path[at..] + [path[at]])
  {
    var c := path[at..] + [path[at]];
    forall i | 0 < i < |c| ensures c[i] in g[c[i - 1]] {
      if i < |path| - at { assert path[at + i] in g[path[at + i - 1]]; }
    }
  }

  lemma PathGrows(g: Graph, path: seq<string>, id: string)
    requires Walk(g, path) && Distinct(path) && id in g && id !in path && (path != [] ==> id in g[path[|path| - 1]])
    ensures Walk(g, path + [id]) && Distinct(path + [id])
  {
  }

  // ----- the order of names

  /** Strings are ordered character by character, as `BTreeMap` and `BTreeSet` list their keys. */
  predicate Precedes(a: string, b: string) {
    if b == [] then false
    else if a == [] then true
    else a[0] < b[0] || (a[0] == b[0] && Precedes(a[1..], b[1..]))
  }

  lemma {:induction false} PrecedesIrreflexive(a: string)
    ensures !Precedes(a, a)
  {
    if a != [] { PrecedesIrreflexive(a[1..]); }
  }

  lemma {:induction false} PrecedesTransitive(a: string, b: string, c: string)
    requires Precedes(a, b) && Precedes(b, c)
    ensures Precedes(a, c)
  {
    if a != [] && a[0] == b[0] && b[0] == c[0] { PrecedesTransitive(a[1..], b[1..], c[1..]); }
  }

  lemma {:induction false} PrecedesTotal(a: string, b: string)
    ensures a == b || Precedes(a, b) || Precedes(b, a)
  {
    if a != [] && b != [] && a[0] == b[0] {
      PrecedesTotal(a[1..], b[1..]);
      if a[1..] == b[1..] { assert a == [a[0]] + a[1..] == [b[0]] + b[1..] == b; }
    }
  }

  predicate IsFirst(s: set<string>, m: string) { m in s && forall x | x in s :: x == m || Precedes(m, x) }

  lemma {:induction false} HasFirst(s: set<string>) returns (m: string)
    requires s != {}
    ensures IsFirst(s, m)
    decreases |s|
  {
    var x :| x in s;
    if s == {x} {
      m := x;
    } else {
      var rest := s - {x};
      assert s == rest + {x};
      var n := HasFirst(rest);
      PrecedesTotal(x, n);
      m := if Precedes(x, n) then x else n;
      forall y | y in s ensures y == m || Precedes(m, y) {
        if m == x && y in rest && y != n { PrecedesTransitive(x, n, y); }
      }
    }
  }

  lemma OneFirst(s: set<string>)
    ensures forall m, n | IsFirst(s, m) && IsFirst(s, n) :: m == n
  {
    forall m, n | IsFirst(s, m) && IsFirst(s, n) ensures m == n {
      if m != n {
        PrecedesTransitive(m, n, m);
        PrecedesIrreflexive(m);
      }
    }
  }

  function First(s: set<string>): (m: string)
    requires s != {}
    ensures IsFirst(s, m)
  {
    OneFirst(s);
    assert exists m :: IsFirst(s, m) by { var m := HasFirst(s); }
    var m :| IsFirst(s, m);
    m
  }

  predicate Ascending(names: seq<string>) { forall i, j | 0 <= i < j < |names| :: Precedes(names[i], names[j]) }

  /** The names of a set, ascending. */
  function Sorted(s: set<string>): (r: seq<string>)
    ensures forall x :: x in r <==> x in s
    ensures Ascending(r)
    decreases |s|
  {
    if s == {} then []
    else
      var m := First(s);
      var rest := Sorted(s - {m});
      assert forall i | 0 <= i < |rest| :: rest[i] in rest;
      [m] + rest
  }

  // ----- the search

  /** What the visit of `id` makes of the finished nodes `done`, or the cycle that it meets; `path` leads to
      `id`. */
  function After(g: Graph, done: seq<string>, path: seq<string>, id: string): Result<seq<string>, seq<string>>
    requires Complete(g) && Distinct(path) && id in g && forall n | n in path :: n in g
    decreases |g.Keys| - |path|, 1, 0
  {
    if id in path then Err(path[Position(path, id)..] + [id])
    else if id in done then Ok(done)
    else
      PathFits(g, path, id);
      match AfterAll(g, done, path + [id], Sorted(g[id]))
      case Err(cycle) => Err(cycle)
      case Ok(more) => Ok(more + [id])
  }

  function AfterAll(g: Graph, done: seq<string>, path: seq<string>, ids: seq<string>): Result<seq<string>, seq<string>>
    requires Complete(g) && Distinct(path) && |path| <= |g.Keys|
    requires (forall n | n in path :: n in g) && forall n | n in ids :: n in g
    decreases |g.Keys| - |path|, 2, |ids|
  {
    if ids == [] then Ok(done)
    else
      match After(g, done, path, ids[0])
      case Err(cycle) => Err(cycle)
      case Ok(more) => AfterAll(g, more, path, ids[1..])
  }

  /** The order that the program gives the nodes of a graph. */
  function NameOrder(g: Graph): Result<seq<string>, seq<string>>
    requires Complete(g)
  {
    AfterAll(g, [], [], Sorted(g.Keys))
  }

  function Position(s: seq<string>, x: string): (i: nat)
    requires x in s
    ensures i < |s| && s[i] == x
  {
    if s[0] == x then 0 else 1 + Position(s[1..], x)
  }

  /** The path never repeats a node, so it cannot outgrow the graph. */
  lemma PathFits(g: Graph, path: seq<string>, id: string)
    requires Distinct(path) && id in g && id !in path && forall n | n in path :: n in g
    ensures |path| < |g.Keys| && Distinct(path + [id])
  {
    var longer := path + [id];
    DistinctSize(longer, g.Keys);
  }

  /** A path through unfinished nodes, and nodes that may come next. */
  ghost predicate Searching(g: Graph, done: seq<string>, path: seq<string>) {
    && Complete(g) && Ordered(g, done) && Distinct(path) && Walk(g, path)
    && forall n | n in path :: n in g && n !in done
  }

  ghost predicate Found(g: Graph, done: seq<string>, path: seq<string>, r: Result<seq<string>, seq<string>>) {
    match r
    case Ok(more) => Ordered(g, more) && done <= more && forall n | n in path :: n !in more
    case Err(cycle) => Cycle(g, cycle)
  }

  lemma {:induction false} AfterSound(g: Graph, done: seq<string>, path: seq<string>, id: string)
    requires Searching(g, done, path) && id in g && (path != [] ==> id in g[path[|path| - 1]])
    ensures var r := After(g, done, path, id); Found(g, done, path, r) && (r.Ok? ==> id in r.value)
    decreases |g.Keys| - |path|, 1, 0
  {
    hide Ordered, Walk, Cycle;
    if id in path {
      CycleFound(g, path, Position(path, id));
    } else if id !in done {
      PathFits(g, path, id);
      PathGrows(g, path, id);
      var longer := path + [id];
      assert longer[|longer| - 1] == id;
      AfterAllSound(g, done, longer, Sorted(g[id]));
      var r := AfterAll(g, done, longer, Sorted(g[id]));
      if r.Ok? {
        assert id in longer;
        EarlierStays(g, r.value, id);
        forall n | n in path ensures n !in r.value + [id] { assert n in longer; }
      }
    }
  }

  lemma {:induction false} AfterAllSound(g: Graph, done: seq<string>, path: seq<string>, ids: seq<string>)
    requires Searching(g, done, path) && |path| <= |g.Keys|
    requires forall n | n in ids :: n in g && (path != [] ==> n in g[path[|path| - 1]])
    ensures var r := AfterAll(g, done, path, ids);
      Found(g, done, path, r) && (r.Ok? ==> forall n | n in ids :: n in r.value)
    decreases |g.Keys| - |path|, 2, |ids|
  {
    hide Ordered, Walk, Cycle;
    if ids != [] {
      assert ids[0] in ids && forall n | n in ids[1..] :: n in ids;
      AfterSound(g, done, path, ids[0]);
      var r := After(g, done, path, ids[0]);
      if r.Ok? {
        AfterAllSound(g, r.value, path, ids[1..]);
        var s := AfterAll(g, r.value, path, ids[1..]);
        if s.Ok? {
          forall n | n in ids ensures n in s.value {
            if n == ids[0] { assert n in r.value; } else { assert n in ids[1..]; }
          }
        }
      }
    }
  }

  /** The order is a topological one, or a cycle shows that there is none. */
  lemma NameOrderSound(g: Graph)
    requires Complete(g)
    ensures var r := NameOrder(g);
      && (r.Ok? ==> Topological(g, r.value))
      && (r.Err? ==> Cycle(g, r.error))
      && (r.Ok? <==> !exists c :: Cycle(g, c))
  {
    AfterAllSound(g, [], [], Sorted(g.Keys));
    var r := NameOrder(g);
    if r.Ok? {
      forall n | n in g ensures n in r.value { assert n in Sorted(g.Keys); }
      forall c ensures !Cycle(g, c) { OrderedHasNoCycle(g, r.value, c); }
    }
  }

  /** The state of the search: the finished nodes, in order, and the path to the current one. */
  class Search {
    const g: Graph
    var done: set<string>
    var path: seq<string>
    var result: seq<string>

    ghost predicate Valid()
      reads this
    {
      && Complete(g) && (forall n :: n in done <==> n in result)
      && Distinct(path) && forall n | n in path :: n in g
    }

    constructor (g: Graph)
      requires Complete(g)
      ensures this.g == g && Valid() && path == [] && result == []
    {
      this.g := g;
      done := {};
      path := [];
      result := [];
    }

    /** `visit`: finishes `id` and all it depends on, in the order of names, unless a cycle is met. */
    method Visit(id: string) returns (cycle: Option<seq<string>>)
      requires Valid() && id in g
      modifies this
      ensures match old(After(g, result, path, id))
        case Ok(more) => cycle.None? && Valid() && result == more && path == old(path)
        case Err(c) => cycle == Some(c)
      decreases |g.Keys| - |path|
    {
      hide Ascending;
      if id in path { return Some(path[Position(path, id)..] + [id]); }
      if id in done { return None; }
      ghost var before, r0 := path, result;
      PathFits(g, path, id);
      path := path + [id];
      var todo := Sorted(g[id]);
      var k := 0;
      ghost var all := AfterAll(g, r0, path, todo);
      while k < |todo|
        invariant 0 <= k <= |todo| && Valid() && path == before + [id] && id !in before
        invariant AfterAll(g, result, path, todo[k..]) == all
      {
        assert todo[k] in todo && todo[k..][1..] == todo[k + 1..];
        cycle := Visit(todo[k]);
        if cycle.Some? { return; }
        k := k + 1;
      }
      assert todo[k..] == [];
      path := path[..|path| - 1];
      assert path == before;
      done := done + {id};
      result := result + [id];
      return None;
    }
  }

  /** `order`: dependencies first, and otherwise by name; or a cycle that makes that impossible. */
  method Order(g: Graph) returns (r: Result<seq<string>, seq<string>>)
    requires Complete(g)
    ensures r == NameOrder(g)
    ensures r.Ok? ==> Topological(g, r.value)
    ensures r.Err? ==> Cycle(g, r.error)
    ensures r.Ok? <==> !exists c :: Cycle(g, c)
  {
    hide Topological, Cycle, Ascending;
    NameOrderSound(g);
    var search := new Search(g);
    var todo := Sorted(g.Keys);
    var k := 0;
    while k < |todo|
      invariant 0 <= k <= |todo| && search.Valid() && search.g == g && search.path == []
      invariant AfterAll(g, search.result, [], todo[k..]) == NameOrder(g)
    {
      assert todo[k] in todo && todo[k..][1..] == todo[k + 1..];
      var cycle := search.Visit(todo[k]);
      if cycle.Some? { return Err(cycle.value); }
      k := k + 1;
    }
    assert todo[k..] == [];
    return Ok(search.result);
  }

  /** Part of an acyclic graph, with the dependencies inside the part, is acyclic. */
  function Restricted(g: Graph, part: set<string>): (r: Graph)
    requires part <= g.Keys
    ensures Complete(r)
  {
    map n | n in part :: g[n] * part
  }

  lemma RestrictedHasNoCycle(g: Graph, part: set<string>, c: seq<string>)
    requires part <= g.Keys
    ensures Cycle(Restricted(g, part), c) ==> Cycle(g, c)
  {
  }
}
