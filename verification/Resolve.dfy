/** The propagation of delegated definitions along selected imports. */
module Resolve {
  type Definitions = map<string, set<string>>

  type Edges = set<(string, string)>

  /** Each step of the path is a selected import: its caller imports its provider. */
  predicate Chain(edges: Edges, path: seq<string>) {
    path != [] && forall i | 0 <= i < |path| - 1 :: (path[i], path[i + 1]) in edges
  }

  /** Plugin `id` reaches, by selected imports, a plugin that defines the key itself. */
  ghost predicate Delegated(own: Definitions, edges: Edges, id: string, key: string) {
    exists path :: Leads(own, edges, id, key, path)
  }

  predicate Leads(own: Definitions, edges: Edges, id: string, key: string, path: seq<string>) {
    && Chain(edges, path) && path[0] == id
    && path[|path| - 1] in own && key in own[path[|path| - 1]]
  }

  function Lookup(d: Definitions, id: string): set<string> { if id in d then d[id] else {} }

  /** A caller holds what its selected providers hold. */
  predicate Closed(d: Definitions, edges: Edges) {
    forall e | e in edges :: Lookup(d, e.1) <= Lookup(d, e.0)
  }

  predicate Above(d: Definitions, own: Definitions) { forall id | id in own :: own[id] <= Lookup(d, id) }

  // ----- the least fixpoint

  /** What a closed family above the own definitions must hold. */
  lemma {:induction false} ClosedHolds(d: Definitions, own: Definitions, edges: Edges, id: string, key: string,
                                       path: seq<string>)
    requires Closed(d, edges) && Above(d, own) && Leads(own, edges, id, key, path)
    ensures key in Lookup(d, id)
    decreases |path|
  {
    if |path| > 1 {
      assert (path[0], path[1]) in edges;
      var rest := path[1..];
      forall i | 0 <= i < |rest| - 1 ensures (rest[i], rest[i + 1]) in edges {
        assert (path[i + 1], path[i + 2]) in edges;
      }
      ClosedHolds(d, own, edges, path[1], key, rest);
    }
  }

  /** The delegated definitions lie in every closed family above the own ones. */
  lemma Least(d: Definitions, own: Definitions, edges: Edges)
    requires Closed(d, edges) && Above(d, own)
    ensures forall id, key | Delegated(own, edges, id, key) :: key in Lookup(d, id)
  {
    forall id, key | Delegated(own, edges, id, key) ensures key in Lookup(d, id) {
      var path :| Leads(own, edges, id, key, path);
      ClosedHolds(d, own, edges, id, key, path);
    }
  }

  /** One import more in front of a path. */
  lemma Extends(own: Definitions, edges: Edges, caller: string, provider: string, key: string)
    requires (caller, provider) in edges && Delegated(own, edges, provider, key)
    ensures Delegated(own, edges, caller, key)
  {
    var path :| Leads(own, edges, provider, key, path);
    assert Leads(own, edges, caller, key, [caller] + path);
  }

  ghost predicate Sound(d: Definitions, own: Definitions, edges: Edges) {
    forall id, key | id in d && key in d[id] :: Delegated(own, edges, id, key)
  }

  /** A set that is not larger than a part of it has nothing more. */
  lemma SameSize(a: set<string>, b: set<string>)
    ensures |a + b| != |a| <==> !(b <= a)
  {
    assert a + b == a + (b - a);
    assert |a + b| == |a| + |b - a|;
    assert b <= a <==> b - a == {};
  }

  /** What is still missing; every change of a pass makes it smaller. */
  ghost function Missing(d: Definitions, universe: set<string>): set<(string, string)> {
    set id, key | id in d && key in universe && key !in d[id] :: (id, key)
  }

  ghost predicate Fit(d: Definitions, own: Definitions, edges: Edges, universe: set<string>) {
    && d.Keys == own.Keys && Above(d, own) && Sound(d, own, edges)
    && forall id | id in d :: d[id] <= universe
  }

  predicate Grown(a: Definitions, b: Definitions) { a.Keys == b.Keys && forall id | id in a :: a[id] <= b[id] }

  /** The loop over the selected edges until nothing grows, with the edges of a pass in any order. Every
      plugin ends with exactly the definitions of the plugins it reaches by selected imports: the result
      depends on no order, and it is the least family that is closed under the imports. */
  method Delegate(own: Definitions, edges: Edges) returns (delegated: Definitions)
    requires forall e | e in edges :: e.0 in own
    ensures delegated.Keys == own.Keys
    ensures forall id, key | id in own :: key in delegated[id] <==> Delegated(own, edges, id, key)
    ensures Closed(delegated, edges) && Above(delegated, own)
  {
    hide Sound, Closed;
    delegated := own;
    ghost var universe := set id, key | id in own && key in own[id] :: key;
    OwnIsSound(own, edges);
    var grew := true;
    while grew
      invariant Fit(delegated, own, edges, universe)
      invariant !grew ==> Closed(delegated, edges)
      decreases Missing(delegated, universe), grew
    {
      ghost var before := delegated;
      delegated, grew := Pass(delegated, own, edges, universe);
      if grew { Shrinks(before, delegated, universe); }
    }
    Least(delegated, own, edges);
    Exact(delegated, own, edges);
  }

  /** One pass over the edges. */
  method Pass(d: Definitions, own: Definitions, edges: Edges, ghost universe: set<string>)
    returns (after: Definitions, grew: bool)
    requires Fit(d, own, edges, universe)
    requires forall e | e in edges :: e.0 in own
    ensures Fit(after, own, edges, universe) && Grown(d, after)
    ensures grew <==> after != d
    ensures !grew ==> Closed(d, edges)
  {
    hide Fit;
    after, grew := d, false;
    var todo := edges;
    FitKeys(d, own, edges, universe);
    while todo != {}
      invariant todo <= edges && Fit(after, own, edges, universe) && Grown(d, after)
      invariant grew <==> after != d
      invariant !grew ==> Closed(d, edges - todo)
      decreases |todo|
    {
      var e :| e in todo;
      todo := todo - {e};
      var downstream := Lookup(after, e.1);
      var inherited := after[e.0];
      var extended := inherited + downstream;
      SameSize(inherited, downstream);
      FitKeys(after, own, edges, universe);
      InheritFits(after, own, edges, universe, e);
      InheritGrows(d, after, e);
      if |extended| != |inherited| { grew := true; }
      after := after[e.0 := extended];
    }
    assert edges - {} == edges;
  }

  lemma FitKeys(d: Definitions, own: Definitions, edges: Edges, universe: set<string>)
    requires Fit(d, own, edges, universe)
    ensures d.Keys == own.Keys
  {
  }

  /** One edge: the caller inherits. */
  lemma InheritFits(d: Definitions, own: Definitions, edges: Edges, universe: set<string>, e: (string, string))
    requires Fit(d, own, edges, universe) && e in edges && e.0 in d
    ensures Fit(d[e.0 := d[e.0] + Lookup(d, e.1)], own, edges, universe)
  {
    hide Sound;
    Inherit(d, own, edges, e.0, e.1);
  }

  lemma InheritGrows(start: Definitions, d: Definitions, e: (string, string))
    requires Grown(start, d) && e.0 in d
    ensures var after := d[e.0 := d[e.0] + Lookup(d, e.1)];
      && Grown(start, after)
      && (Lookup(d, e.1) <= d[e.0] ==> after == d)
      && (!(Lookup(d, e.1) <= d[e.0]) || d != start ==> after != start)
  {
    var after := d[e.0 := d[e.0] + Lookup(d, e.1)];
    if Lookup(d, e.1) <= d[e.0] {
      assert d[e.0] + Lookup(d, e.1) == d[e.0];
      assert after == d;
    } else {
      assert start[e.0] < after[e.0];
    }
    if d != start {
      var id :| id in d && d[id] != start[id];
      assert start[id] < d[id] <= after[id];
    }
  }

  lemma Exact(d: Definitions, own: Definitions, edges: Edges)
    requires Sound(d, own, edges) && d.Keys == own.Keys
    requires forall id, key | Delegated(own, edges, id, key) :: key in Lookup(d, id)
    ensures forall id, key | id in own :: key in d[id] <==> Delegated(own, edges, id, key)
  {
  }

  lemma OwnIsSound(own: Definitions, edges: Edges)
    ensures Sound(own, own, edges)
  {
    forall id, key | id in own && key in own[id] ensures Delegated(own, edges, id, key) {
      assert Leads(own, edges, id, key, [id]);
    }
  }

  lemma Inherit(d: Definitions, own: Definitions, edges: Edges, caller: string, provider: string)
    requires Sound(d, own, edges) && (caller, provider) in edges && caller in d
    ensures Sound(d[caller := d[caller] + Lookup(d, provider)], own, edges)
  {
    forall key | key in Lookup(d, provider) ensures Delegated(own, edges, caller, key) {
      Extends(own, edges, caller, provider, key);
    }
  }

  lemma Shrinks(before: Definitions, after: Definitions, universe: set<string>)
    requires Grown(before, after) && before != after && forall id | id in after :: after[id] <= universe
    ensures Missing(after, universe) < Missing(before, universe)
  {
    var id :| id in before && before[id] != after[id];
    var key :| key in after[id] && key !in before[id];
    assert (id, key) in Missing(before, universe) && (id, key) !in Missing(after, universe);
  }
}
