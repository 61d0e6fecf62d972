/** Compiled graphs: static ordering of nodes and writers, and the projection to the active nodes. */
module Graphs {
  import opened Wrappers
  import opened Contract
  import opened Bytes
  import V = Values
  import Schemas
  import Prepared
  import opened Dag

  /** What a node's domain failure means for the rest of the graph. */
  datatype FailurePolicy = Skip | FailRoot

  /** A contributed node with its resolved provider. */
  datatype Node = Node(
    owner: string, selection: Prepared.Selection,
    triggers: seq<string>, after: set<string>, writes: set<string>, failure: FailurePolicy)
  {
    function Provider(): string { selection.provider }
  }

  datatype CompiledGraph = CompiledGraph(
    nodes: map<string, Node>, events: set<string>, predecessors: Graph, order: seq<string>)

  // ----- names

  /** plugin/local, with a plugin other than the host. */
  predicate NodeKey(key: string) {
    var parts := Prepared.SplitOnce(key, '/');
    && parts.Some?
    && Prepared.Identifier(parts.value.0) && parts.value.0 != "root" && Prepared.Identifier(parts.value.1)
  }

  predicate NamedBy(key: string, owner: string, name: string) {
    key == owner + "/" + name && Prepared.Identifier(owner) && owner != "root" && Prepared.Identifier(name)
  }

  /** A node is named owner/name, where the owner is a plugin. */
  lemma NodeKeyExactly(key: string)
    ensures NodeKey(key) <==> exists owner, name :: NamedBy(key, owner, name)
  {
    if NodeKey(key) {
      var parts := Prepared.SplitOnce(key, '/').value;
      assert NamedBy(key, parts.0, parts.1);
    }
    if owner, name :| NamedBy(key, owner, name) {
      assert forall c | c in owner :: Prepared.IdentifierChar(c);
      Prepared.SplitFirst(owner, name, '/');
    }
  }

  /** The property whose commits trigger a node. */
  function StateChange(trigger: string): (property: Option<string>)
    ensures property.Some? ==> trigger == "state:" + property.value && NodeKey(property.value)
  {
    if "state:" <= trigger && NodeKey(trigger[6..]) then Some(trigger[6..]) else None
  }

  lemma StateTrigger(property: string)
    requires NodeKey(property)
    ensures StateChange("state:" + property) == Some(property)
  {
    var trigger := "state:" + property;
    assert trigger[6..] == property;
    assert trigger[..6] == "state:";
  }

  // ----- dependencies

  /** `a` comes after `b`, directly or through other nodes. */
  ghost predicate Depends(g: Graph, a: string, b: string) {
    exists p :: Walk(g, p) && |p| >= 2 && p[0] == a && p[|p| - 1] == b
  }

  lemma DependsStep(g: Graph, a: string, b: string, c: string)
    requires a in g && b in g && c in g && c in g[b] && (a == b || Depends(g, a, b))
    ensures Depends(g, a, c)
  {
    var p := if a == b then [a] else var q :| Walk(g, q) && |q| >= 2 && q[0] == a && q[|q| - 1] == b; q;
    var longer := p + [c];
    assert Walk(g, longer);
  }

  /** A set that is closed under dependencies holds every node its members depend on. */
  lemma {:induction false} ClosedHoldsWalk(g: Graph, closed: set<string>, p: seq<string>)
    requires Walk(g, p) && |p| >= 1 && p[0] in closed
    requires forall n, d | n in closed && n in g && d in g[n] :: d in closed
    ensures p[|p| - 1] in closed
    decreases |p|
  {
    if |p| > 1 {
      assert forall i | 0 < i < |p[1..]| :: p[1..][i] == p[i + 1];
      ClosedHoldsWalk(g, closed, p[1..]);
    }
  }

  /** The search has met every dependency of the visited nodes, and none of them is `sought`. */
  ghost predicate Explored(g: Graph, visited: set<string>, pending: seq<string>, sought: string) {
    forall n | n in visited && n in g :: forall d | d in g[n] :: d != sought && (d in visited || d in pending)
  }

  lemma ExploredPop(g: Graph, visited: set<string>, pending: seq<string>, node: string, sought: string)
    requires Explored(g, visited, pending + [node], sought) && node in visited
    ensures Explored(g, visited, pending, sought)
  {
    assert forall d | d in pending + [node] :: d in pending || d == node;
  }

  lemma ExploredPush(g: Graph, visited: set<string>, pending: seq<string>, node: string, sought: string,
                     next: seq<string>)
    requires Explored(g, visited, pending + [node], sought) && node in g && pending <= next
    requires forall d | d in g[node] :: d != sought && d in next
    ensures Explored(g, visited + {node}, next, sought)
  {
    assert forall d | d in pending :: d in next;
  }

  lemma NothingExplored(g: Graph, pending: seq<string>, sought: string)
    ensures Explored(g, {}, pending, sought)
  {
  }

  ghost predicate FoundFrom(g: Graph, start: string, n: string) { n in g && (n == start || Depends(g, start, n)) }

  lemma FoundStep(g: Graph, start: string, node: string, predecessor: string)
    requires Complete(g) && start in g && FoundFrom(g, start, node) && predecessor in g[node]
    ensures FoundFrom(g, start, predecessor) && Depends(g, start, predecessor)
  {
    DependsStep(g, start, node, predecessor);
  }

  lemma FoundIsNode(g: Graph, start: string, n: string)
    requires start in g
    ensures FoundFrom(g, start, start) && (FoundFrom(g, start, n) ==> n in g)
  {
  }

  /** `ancestor`: whether `start` comes after `sought`. */
  method Ancestor(start: string, sought: string, g: Graph) returns (r: bool)
    requires Complete(g) && start in g
    ensures r <==> Depends(g, start, sought)
  {
    hide Walk, Explored, Depends, FoundFrom, Complete;
    FoundIsNode(g, start, start);
    var pending := [start];
    var visited: set<string> := {};
    NothingExplored(g, pending, sought);
    while pending != []
      invariant forall n | n in pending :: FoundFrom(g, start, n)
      invariant visited <= g.Keys && (start in visited || start in pending)
      invariant Explored(g, visited, pending, sought)
      decreases |g.Keys - visited|, |pending|
    {
      var node := pending[|pending| - 1];
      assert node in pending;
      FoundIsNode(g, start, node);
      ghost var before := pending;
      pending := pending[..|pending| - 1];
      assert before == pending + [node];
      if node in visited {
        ExploredPop(g, visited, pending, node, sought);
        continue;
      }
      assert node in g.Keys - visited;
      assert start == node || start in visited || start in pending;
      ghost var kept := pending;
      var todo := g[node];
      while todo != {}
        invariant todo <= g[node] && kept <= pending
        invariant start == node || start in visited || start in pending
        invariant forall n | n in pending :: FoundFrom(g, start, n)
        invariant forall d | d in g[node] && d !in todo :: d != sought && d in pending
        decreases |todo|
      {
        var predecessor :| predecessor in todo;
        FoundStep(g, start, node, predecessor);
        if predecessor == sought { return true; }
        pending := pending + [predecessor];
        todo := todo - {predecessor};
      }
      ExploredPush(g, visited, kept, node, sought, pending);
      visited := visited + {node};
    }
    NotReached(g, visited, start, sought);
    return false;
  }

  lemma NotReached(g: Graph, visited: set<string>, start: string, sought: string)
    requires Complete(g) && start in visited && visited <= g.Keys && Explored(g, visited, [], sought)
    ensures !Depends(g, start, sought)
  {
    forall p | Walk(g, p) && |p| >= 2 && p[0] == start ensures p[|p| - 1] != sought {
      var front := p[..|p| - 1];
      assert forall i | 0 <= i < |front| :: front[i] == p[i];
      ClosedHoldsWalk(g, visited, front);
      var n := p[|p| - 2];
      assert n == front[|front| - 1] && n in visited && p[|p| - 1] in g[n];
    }
  }

  // ----- compilation

  predicate Triggered(events: set<string>, trigger: string) { StateChange(trigger).Some? || trigger in events }

  /** Two writers of one property, in a fixed order. */
  ghost predicate PairOrdered(g: Graph, a: string, b: string) { Depends(g, a, b) || Depends(g, b, a) }

  /** Any two writers of a property are ordered. */
  ghost predicate WritersOrdered(nodes: map<string, Node>, g: Graph) {
    forall a, b, property | a in nodes && b in nodes && a != b
                            && property in nodes[a].writes && property in nodes[b].writes ::
      PairOrdered(g, a, b)
  }

  function PredecessorsOf(nodes: map<string, Node>): Graph { map id | id in nodes :: nodes[id].after }

  ghost predicate TriggersKnown(nodes: map<string, Node>, events: set<string>) {
    forall id, trigger | id in nodes && trigger in nodes[id].triggers :: Triggered(events, trigger)
  }

  /** What compilation has established of a graph. */
  ghost predicate Compiled(c: CompiledGraph) {
    && c.predecessors == PredecessorsOf(c.nodes) && Complete(c.predecessors)
    && TriggersKnown(c.nodes, c.events)
    && Topological(c.predecessors, c.order)
    && WritersOrdered(c.nodes, c.predecessors)
  }

  /** `CompiledGraph::compile`, for the nodes and events of all contributions together. */
  method Compile(nodes: map<string, Node>, events: set<string>) returns (r: Result<CompiledGraph, Failure>)
    ensures r.Ok? ==> Compiled(r.value) && r.value.nodes == nodes && r.value.events == events
    ensures r.Ok? <==> (
      && TriggersKnown(nodes, events) && Complete(PredecessorsOf(nodes))
      && !(exists c :: Cycle(PredecessorsOf(nodes), c))
      && WritersOrdered(nodes, PredecessorsOf(nodes)))
    ensures r.Err? ==> r == Err(Failure(DescriptorInvalid))
  {
    hide Cycle, Topological, Depends, StateChange;
    var predecessors := PredecessorsOf(nodes);
    if exists id | id in nodes :: exists trigger | trigger in nodes[id].triggers :: !Triggered(events, trigger) {
      return Err(Failure(DescriptorInvalid));
    }
    if id, dependency :| id in predecessors && dependency in predecessors[id] && dependency !in nodes {
      assert id in predecessors && dependency in predecessors[id] && dependency !in predecessors;
      return Err(Failure(DescriptorInvalid));
    }
    assert Complete(predecessors);
    var order := Order(predecessors);
    if order.Err? { return Err(Failure(DescriptorInvalid)); }
    var ordered := CheckWriters(nodes, predecessors);
    if !ordered { return Err(Failure(DescriptorInvalid)); }
    return Ok(CompiledGraph(nodes, events, predecessors, order.value));
  }

  /** The loop over all pairs of writers. */
  method CheckWriters(nodes: map<string, Node>, g: Graph) returns (ordered: bool)
    requires Complete(g) && g.Keys == nodes.Keys
    ensures ordered <==> WritersOrdered(nodes, g)
  {
    hide Depends;
    var lefts := nodes.Keys;
    while lefts != {}
      invariant lefts <= nodes.Keys
      invariant forall a, b, property | a in nodes && a !in lefts && b in nodes && a != b
                                        && property in nodes[a].writes && property in nodes[b].writes ::
        PairOrdered(g, a, b)
    {
      var left :| left in lefts;
      var rights := nodes.Keys - {left};
      while rights != {}
        invariant rights <= nodes.Keys - {left}
        invariant forall b, property | b in nodes && b != left && b !in rights
                                       && property in nodes[left].writes && property in nodes[b].writes ::
          PairOrdered(g, left, b)
      {
        var right :| right in rights;
        if nodes[left].writes * nodes[right].writes != {} {
          var after := Ancestor(left, right, g);
          var before := Ancestor(right, left, g);
          if !after && !before {
            var property :| property in nodes[left].writes * nodes[right].writes;
            assert !PairOrdered(g, left, right);
            return false;
          }
        } else {
          assert forall p | p in nodes[left].writes && p in nodes[right].writes ::
            p in nodes[left].writes * nodes[right].writes;
        }
        rights := rights - {right};
      }
      lefts := lefts - {left};
    }
    return true;
  }

  // ----- projection

  function Active(c: CompiledGraph, triggers: set<string>): set<string> {
    set id | id in c.nodes && exists trigger | trigger in c.nodes[id].triggers :: trigger in triggers
  }

  /** `project_triggers`: the active nodes, each after its active direct predecessors. For a compiled
      graph the projection always succeeds. */
  method ProjectTriggers(c: CompiledGraph, triggers: set<string>) returns (r: Result<seq<string>, Failure>)
    requires Compiled(c)
    ensures r.Ok?
    ensures NameOrder(Restricted(c.predecessors, Active(c, triggers))) == Ok(r.value)
    ensures Topological(Restricted(c.predecessors, Active(c, triggers)), r.value)
  {
    hide Cycle, Topological, Depends;
    var active := Active(c, triggers);
    var projection := Restricted(c.predecessors, active);
    var order := Order(projection);
    if order.Err? { StillNoCycle(c, active, order.error); }
    return Ok(order.value);
  }

  lemma StillNoCycle(c: CompiledGraph, active: set<string>, cycle: seq<string>)
    requires Compiled(c) && active <= c.predecessors.Keys
    ensures !Cycle(Restricted(c.predecessors, active), cycle)
  {
    RestrictedHasNoCycle(c.predecessors, active, cycle);
    OrderedHasNoCycle(c.predecessors, c.order, cycle);
  }

  function StateTriggers(changed: set<string>): set<string> {
    set property | property in changed :: "state:" + property
  }

  /** `state_change_activation_order`. */
  method StateActivation(c: CompiledGraph, changed: set<string>) returns (r: Result<seq<string>, Failure>)
    requires Compiled(c)
    ensures r.Ok? <==> forall property | property in changed :: NodeKey(property)
    ensures r.Ok? ==>
      && NameOrder(Restricted(c.predecessors, Active(c, StateTriggers(changed)))) == Ok(r.value)
      && Topological(Restricted(c.predecessors, Active(c, StateTriggers(changed))), r.value)
  {
    if exists property | property in changed :: !NodeKey(property) { return Err(Failure(DescriptorInvalid)); }
    r := ProjectTriggers(c, StateTriggers(changed));
  }

  /** The changed properties that a node declared, in the order of its triggers. */
  function Matching(triggers: seq<string>, changed: set<string>): (r: seq<string>)
    ensures forall p :: p in r ==> p in changed && exists t :: t in triggers && StateChange(t) == Some(p)
    ensures forall t | t in triggers && StateChange(t).Some? && StateChange(t).value in changed ::
      StateChange(t).value in r
  {
    if triggers == [] then []
    else
      var p := StateChange(triggers[0]);
      (if p.Some? && p.value in changed then [p.value] else []) + Matching(triggers[1..], changed)
  }

  function HookRequest(node: Node, changed: set<string>, epoch: u64): V.Value {
    var properties := Matching(node.triggers, changed);
    V.Map([
      V.Field(Ascii("epoch"), V.U64(epoch)),
      V.Field(Ascii("properties"),
              V.List(seq(|properties|, i requires 0 <= i < |properties| => V.String(Ascii(properties[i])))))])
  }

  /** The property has changed, and a trigger of the node names it. */
  predicate Concerns(node: Node, changed: set<string>, property: string) {
    property in changed && exists t :: t in node.triggers && StateChange(t) == Some(property)
  }

  /** A hook is told the epoch, and exactly the changed properties that its triggers name. */
  lemma HookTells(node: Node, changed: set<string>, epoch: u64)
    ensures
      var fields := HookRequest(node, changed, epoch).fields;
      var told := Schemas.Lookup(fields, Ascii("properties"));
      && |fields| == 2 && Schemas.Lookup(fields, Ascii("epoch")) == Some(V.U64(epoch))
      && told.Some? && told.value.List?
      && (forall p | Concerns(node, changed, p) :: V.String(Ascii(p)) in told.value.items)
      && (forall v | v in told.value.items :: exists p :: Concerns(node, changed, p) && v == V.String(Ascii(p)))
  {
    var properties := Matching(node.triggers, changed);
    var fields := HookRequest(node, changed, epoch).fields;
    assert |Ascii("epoch")| != |Ascii("properties")|;
    assert fields[1..][0] == fields[1];
    var items := fields[1].value.items;
    forall p | Concerns(node, changed, p) ensures V.String(Ascii(p)) in items {
      var i :| 0 <= i < |properties| && properties[i] == p;
      assert items[i] == V.String(Ascii(properties[i]));
    }
    forall v | v in items ensures exists p :: Concerns(node, changed, p) && v == V.String(Ascii(p)) {
      var i :| 0 <= i < |items| && items[i] == v;
      assert properties[i] in properties && Concerns(node, changed, properties[i]);
    }
  }

  /** `state_hook_requests`: what each activated node is told. */
  method StateHookRequests(c: CompiledGraph, active: seq<string>, changed: set<string>, epoch: u64)
    returns (r: Result<map<string, V.Value>, Failure>)
    requires forall id | id in active :: id in c.nodes
    ensures r.Ok? <==> forall id | id in active :: Matching(c.nodes[id].triggers, changed) != []
    ensures r.Ok? ==> r.value == map id | id in active :: HookRequest(c.nodes[id], changed, epoch)
    ensures r.Err? ==> r == Err(Failure(InfrastructureFailure))
  {
    hide Matching, HookRequest;
    var requests: map<string, V.Value> := map[];
    var i := 0;
    while i < |active|
      invariant 0 <= i <= |active|
      invariant forall j | 0 <= j < i :: Matching(c.nodes[active[j]].triggers, changed) != []
      invariant forall id :: id in requests <==> id in active[..i]
      invariant forall id | id in requests :: id in c.nodes && requests[id] == HookRequest(c.nodes[id], changed, epoch)
    {
      assert active[i] in active;
      if Matching(c.nodes[active[i]].triggers, changed) == [] { return Err(Failure(InfrastructureFailure)); }
      requests := requests[active[i] := HookRequest(c.nodes[active[i]], changed, epoch)];
      assert active[..i + 1] == active[..i] + [active[i]];
      i := i + 1;
    }
    assert active[..i] == active;
    return Ok(requests);
  }

  /** A node activated by committed state always has a changed property to be told of. */
  lemma {:induction false} HooksNeverFail(c: CompiledGraph, changed: set<string>, id: string)
    requires (forall property | property in changed :: NodeKey(property)) && id in Active(c, StateTriggers(changed))
    ensures Matching(c.nodes[id].triggers, changed) != []
  {
    var trigger :| trigger in c.nodes[id].triggers && trigger in StateTriggers(changed);
    var property :| property in changed && trigger == "state:" + property;
    StateTrigger(property);
  }

  // ----- what a projection guarantees about order

  predicate Before(order: seq<string>, a: string, b: string) {
    exists i, j :: 0 <= i < j < |order| && order[i] == a && order[j] == b
  }

  /** A dependency path inside the active nodes is kept by every order of the projection. */
  lemma ActivePathKeepsOrder(g: Graph, order: seq<string>, a: string, b: string)
    requires Topological(g, order) && Depends(g, b, a)
    ensures Before(order, a, b)
  {
    var p :| Walk(g, p) && |p| >= 2 && p[0] == b && p[|p| - 1] == a;
    assert b in order;
    var at :| 0 <= at < |order| && order[at] == b;
    var to := WalkDescends(g, order, p, at);
  }
}
