/** The prepared composition: what the resolver fixed before any plugin runs. */
module Prepared {
  import opened Wrappers
  import opened Contract
  import opened Values
  import Schemas

  /** The operation `key` of one selected provider. */
  datatype Selection = Selection(interface: string, operation: string, provider: string) {
    function Key(): string { interface + "/" + operation }
  }

  datatype CellOperation = Get | Set | Watch

  datatype EffectTarget = Native | Cell(property: string, operation: CellOperation)

  datatype PreparedOperation = PreparedOperation(
    request: Schemas.ValueSchema, response: Schemas.ValueSchema, error: Schemas.ValueSchema, target: EffectTarget)

  datatype Prepared = Prepared(
    entry: Selection,
    bindings: map<(string, string), string>,
    grants: map<(string, string), set<string>>,
    authority: Authority,
    resource: Option<string>,
    operations: map<(string, string), PreparedOperation>,
    ceilings: map<string, set<string>>)
  {
    /** The operations that provider `provider` may ever cause, its own and delegated ones. */
    function Ceiling(provider: string): set<string> {
      if provider in ceilings then ceilings[provider] else {}
    }

    predicate Permits(provider: string, key: string) { key in Ceiling(provider) }

    function Operation(selection: Selection): Result<PreparedOperation, Failure> {
      if (selection.provider, selection.Key()) in operations
      then Ok(operations[(selection.provider, selection.Key())])
      else Err(Failure(MissingBinding))
    }

    predicate Bound(caller: string, identity: string, provider: string) {
      (caller, identity) in bindings && bindings[(caller, identity)] == provider
    }
  }

  /** `import_identity`: one operation imported through one slot. */
  function ImportIdentity(slot: string, key: string): string {
    if slot == "" then key else slot + ":" + key
  }

  /** Imports are told apart by slot and operation, as long as neither has a colon. */
  lemma DistinctImports(slot: string, key: string, otherSlot: string, otherKey: string)
    requires ':' !in slot && ':' !in key && ':' !in otherSlot && ':' !in otherKey
    requires ImportIdentity(slot, key) == ImportIdentity(otherSlot, otherKey)
    ensures slot == otherSlot && key == otherKey
  {
    if slot != "" {
      assert ImportIdentity(slot, key) == slot + ":" + key;
      SplitFirst(slot, key, ':');
    }
    if otherSlot != "" {
      assert ImportIdentity(otherSlot, otherKey) == otherSlot + ":" + otherKey;
      SplitFirst(otherSlot, otherKey, ':');
    }
  }

  /** A key is name@major/operation, and nothing else is. */
  lemma OperationKeyExactly(key: string)
    ensures OperationKey(key) <==> exists name, major, operation {:trigger Spells(key, name, major, operation)} ::
      Spells(key, name, major, operation) && Identifier(name) && Major(major) && Identifier(operation)
  {
    if OperationKey(key) {
      var parts := SplitOnce(key, '/').value;
      var name := SplitLast(parts.0, '@').value;
      assert Spells(key, name.0, name.1, parts.1);
    }
    if name, major, operation :|
      Spells(key, name, major, operation) && Identifier(name) && Major(major) && Identifier(operation)
    {
      assert forall c | c in operation || c in name :: IdentifierChar(c);
      SplitFirst(name + "@" + major, operation, '/');
      assert key == (name + "@" + major) + "/" + operation;
      SplitsLast(name, major, '@');
    }
  }

  predicate Spells(key: string, name: string, major: string, operation: string) {
    key == name + "@" + major + "/" + operation
  }

  lemma {:induction false} SplitFirst(a: string, b: string, c: char)
    requires c !in a
    ensures SplitOnce(a + [c] + b, c) == Some((a, b))
  {
    if a == [] {
      assert a + [c] + b == [c] + b;
    } else {
      assert (a + [c] + b)[1..] == a[1..] + [c] + b;
      SplitFirst(a[1..], b, c);
      assert [a[0]] + a[1..] == a;
    }
  }

  lemma {:induction false} SplitsLast(a: string, b: string, c: char)
    requires c !in b
    ensures SplitLast(a + [c] + b, c) == Some((a, b))
  {
    var s := a + [c] + b;
    if b == [] {
      assert s == a + [c];
    } else {
      assert s[..|s| - 1] == a + [c] + b[..|b| - 1];
      SplitsLast(a, b[..|b| - 1], c);
      assert b[..|b| - 1] + [b[|b| - 1]] == b;
    }
  }

  /** The part of an import identity after its first colon. */
  function ImportedKey(identity: string): Option<string> {
    if identity == "" then None
    else if identity[0] == ':' then Some(identity[1..])
    else ImportedKey(identity[1..])
  }

  lemma {:induction false} ImportedKeySplits(identity: string)
    ensures ImportedKey(identity) ==
      if SplitOnce(identity, ':').None? then None else Some(SplitOnce(identity, ':').value.1)
  {
    if identity != "" && identity[0] != ':' { ImportedKeySplits(identity[1..]); }
  }

  predicate IdentifierChar(c: char) {
    'a' <= c <= 'z' || 'A' <= c <= 'Z' || '0' <= c <= '9' || c in "._-"
  }

  predicate Identifier(s: string) { 0 < |s| <= 256 && forall c | c in s :: IdentifierChar(c) }

  /** The two parts of a text around the first `c`. */
  function SplitOnce(s: string, c: char): (r: Option<(string, string)>)
    ensures r.Some? ==> s == r.value.0 + [c] + r.value.1 && c !in r.value.0
    ensures r.None? <==> c !in s
  {
    if s == [] then None
    else if s[0] == c then Some(([], s[1..]))
    else
      var rest := SplitOnce(s[1..], c);
      if rest.None? then None else Some(([s[0]] + rest.value.0, rest.value.1))
  }

  /** ... and around the last `c`. */
  function SplitLast(s: string, c: char): (r: Option<(string, string)>)
    ensures r.Some? ==> s == r.value.0 + [c] + r.value.1 && c !in r.value.1
    ensures r.None? <==> c !in s
  {
    if s == [] then None
    else if s[|s| - 1] == c then Some((s[..|s| - 1], []))
    else
      var rest := SplitLast(s[..|s| - 1], c);
      if rest.None? then None else Some((rest.value.0, rest.value.1 + [s[|s| - 1]]))
  }

  function Decimal(s: string): nat {
    if s == [] then 0
    else Decimal(s[..|s| - 1]) * 10 + (if '0' <= s[|s| - 1] <= '9' then (s[|s| - 1] - '0') as int else 0)
  }

  /** A positive 32-bit number in canonical decimal form. */
  predicate Major(s: string) {
    s != [] && s[0] != '0' && (forall c | c in s :: '0' <= c <= '9') && Decimal(s) <= 0xFFFF_FFFF
  }

  /** `operation_key`: name@major/operation. */
  predicate OperationKey(key: string) {
    var parts := SplitOnce(key, '/');
    && parts.Some?
    && Identifier(parts.value.1)
    && var name := SplitLast(parts.value.0, '@');
       name.Some? && Identifier(name.value.0) && Major(name.value.1)
  }

  /** The resource that guards a property; the property's contract is its first version. */
  function PropertyResource(owner: string, property: string): string { owner + ".property." + property }

  function ContractOf(resource: string): string { resource + "@1" }

  function ResourceOf(contract: string): Option<string> {
    if |contract| >= 2 && contract[|contract| - 2..] == "@1" then Some(contract[..|contract| - 2]) else None
  }

  /** One call on the host's stack; `root` is the root recorded for its scope. */
  datatype Frame = Frame(
    root: nat, ticket: Option<nat>, revoked: bool, provider: string,
    authority: Authority, resource: Option<string>)

  type Stack = seq<Frame>

  /** What the next call may inherit: the top frame's authority, or the root's own. */
  function Inherited(p: Prepared, stack: Stack): ScopedRequest {
    if stack == [] then ScopedRequest(p.authority, p.resource)
    else ScopedRequest(stack[|stack| - 1].authority, stack[|stack| - 1].resource)
  }

  /** `effect_scope`: the one authority check every effect passes, and what the callee receives. */
  function EffectScope(p: Prepared, stack: Stack, caller: string, provider: string, key: string,
                       restriction: Option<ScopedRequest>): Result<ScopedRequest, Failure>
  {
    var inherited := Inherited(p, stack);
    var resource :=
      if restriction.Some? && restriction.value.resource.Some? then restriction.value.resource
      else inherited.resource;
    var switched := inherited.resource.Some? && resource != inherited.resource;
    var authority :=
      if restriction.Some? then inherited.authority.Intersect(restriction.value.authority)
      else inherited.authority;
    var granted := (caller, key) in p.grants;
    var operationAllowed :=
      && granted
      && key in authority.operations
      && p.Permits(provider, key)
      && forall f | f in stack :: p.Permits(f.provider, key);
    var operations := set op | op in authority.operations && p.Permits(provider, op);
    var resources := if granted then authority.resources * p.grants[(caller, key)] else authority.resources;
    var resourceAllowed := resource.Some? ==> resource.value in resources;
    if !operationAllowed || !resourceAllowed || switched then Err(Failure(Denied))
    else Ok(ScopedRequest(Authority(operations, resources), resource))
  }

  /** Whatever runs with this authority and resource runs within the scope `bound`. */
  ghost predicate Confined(bound: ScopedRequest, authority: Authority, resource: Option<string>) {
    authority.Within(bound.authority) && (bound.resource.Some? ==> resource == bound.resource)
  }

  /** When a scope is granted. The operation is inherited, asked for and granted, and permitted to its provider and
      to every provider on the stack. A resource that is fixed above stays fixed, and the resource that will be
      fixed is inherited, asked for and granted as well. */
  lemma GrantedExactly(p: Prepared, stack: Stack, caller: string, provider: string, key: string,
                       restriction: Option<ScopedRequest>)
    ensures
      var n := |stack|;
      var held := if n == 0 then p.authority else stack[n - 1].authority;
      var fixed := if n == 0 then p.resource else stack[n - 1].resource;
      EffectScope(p, stack, caller, provider, key, restriction).Ok? <==>
        && key in held.operations && (restriction.Some? ==> key in restriction.value.authority.operations)
        && (caller, key) in p.grants
        && provider in p.ceilings && key in p.ceilings[provider]
        && (forall f | f in stack :: f.provider in p.ceilings && key in p.ceilings[f.provider])
        && (fixed.Some? && restriction.Some? && restriction.value.resource.Some? ==>
              restriction.value.resource == fixed)
        && (forall r | fixed == Some(r) || (restriction.Some? && restriction.value.resource == Some(r)) ::
              && r in held.resources && (restriction.Some? ==> r in restriction.value.authority.resources)
              && r in p.grants[(caller, key)])
  {
  }

  /** ... and which one. Each operation and each resource of it is inherited and asked for, the operations are
      permitted to the provider, the resources granted for this operation, and nothing else is left out. */
  lemma GrantedScope(p: Prepared, stack: Stack, caller: string, provider: string, key: string,
                     restriction: Option<ScopedRequest>)
    requires EffectScope(p, stack, caller, provider, key, restriction).Ok?
    ensures
      var n := |stack|;
      var held := if n == 0 then p.authority else stack[n - 1].authority;
      var fixed := if n == 0 then p.resource else stack[n - 1].resource;
      var scope := EffectScope(p, stack, caller, provider, key, restriction).value;
      && (forall op :: op in scope.authority.operations <==>
            && op in held.operations && (restriction.Some? ==> op in restriction.value.authority.operations)
            && provider in p.ceilings && op in p.ceilings[provider])
      && (forall r :: r in scope.authority.resources <==>
            && r in held.resources && (restriction.Some? ==> r in restriction.value.authority.resources)
            && (caller, key) in p.grants && r in p.grants[(caller, key)])
      && key in scope.authority.operations
      && (scope.resource.Some? ==> scope.resource.value in scope.authority.resources)
      && (forall r :: scope.resource == Some(r) <==>
            fixed == Some(r) || (restriction.Some? && restriction.value.resource == Some(r)))
      && (restriction.Some? ==> Confined(restriction.value, scope.authority, scope.resource))
  {
  }

  /** Under frames within `bound`, or for a root with that scope, only scopes within `bound` are granted. */
  lemma GrantConfined(p: Prepared, stack: Stack, caller: string, provider: string, key: string,
                      restriction: Option<ScopedRequest>, bound: ScopedRequest)
    requires EffectScope(p, stack, caller, provider, key, restriction).Ok?
    requires forall i | 0 <= i < |stack| :: Confined(bound, stack[i].authority, stack[i].resource)
    requires stack == [] ==> restriction == Some(bound)
    ensures var scope := EffectScope(p, stack, caller, provider, key, restriction).value;
      Confined(bound, scope.authority, scope.resource) && key in bound.authority.operations
  {
    GrantedScope(p, stack, caller, provider, key, restriction);
    if stack != [] {
      var top := stack[|stack| - 1];
      assert Confined(bound, top.authority, top.resource);
    }
  }

  /** Frame `inner` runs under `outer`: no stronger authority, the same fixed resource,
      and only operations that `outer`'s provider may cause. */
  ghost predicate Attenuates(p: Prepared, outer: Frame, inner: Frame) {
    && inner.authority.Within(outer.authority)
    && (outer.resource.Some? ==> inner.resource == outer.resource)
    && inner.authority.operations <= p.Ceiling(outer.provider)
  }

  /** A frame runs within the prepared authority and its own provider's ceiling. */
  ghost predicate FrameOk(p: Prepared, f: Frame) {
    && f.authority.Within(p.authority)
    && (p.resource.Some? ==> f.resource == p.resource)
    && f.authority.operations <= p.Ceiling(f.provider)
  }

  /** Authority only shrinks towards the top of the stack. */
  ghost predicate Attenuated(p: Prepared, stack: Stack) {
    && (forall i | 0 <= i < |stack| :: FrameOk(p, stack[i]))
    && (forall i, j | 0 <= i < j < |stack| :: Attenuates(p, stack[i], stack[j]))
  }

  /** A scope that `EffectScope` grants may be pushed: the stack stays attenuated. */
  lemma ScopeAttenuates(p: Prepared, stack: Stack, caller: string, provider: string, key: string,
                        restriction: Option<ScopedRequest>, f: Frame)
    requires Attenuated(p, stack)
    requires EffectScope(p, stack, caller, provider, key, restriction).Ok?
    requires f.authority == EffectScope(p, stack, caller, provider, key, restriction).value.authority
    requires f.resource == EffectScope(p, stack, caller, provider, key, restriction).value.resource
    requires f.provider == provider
    ensures Attenuated(p, stack + [f])
  {
    assert FrameOk(p, f) by {
      if stack != [] { assert FrameOk(p, stack[|stack| - 1]); }
    }
    forall i | 0 <= i < |stack| ensures Attenuates(p, stack[i], f) {
      var top := stack[|stack| - 1];
      assert FrameOk(p, top);
      if i < |stack| - 1 { assert Attenuates(p, stack[i], top); }
    }
  }

  /** On an attenuated stack the scan over all frames adds nothing to the top frame's authority:
      an operation the top frame holds is permitted to every provider below it. */
  lemma TopFrameDecides(p: Prepared, stack: Stack, key: string)
    requires Attenuated(p, stack) && stack != []
    requires key in stack[|stack| - 1].authority.operations
    ensures forall f | f in stack :: p.Permits(f.provider, key) && key in f.authority.operations
    ensures key in p.authority.operations
  {
    var n := |stack| - 1;
    forall f | f in stack ensures p.Permits(f.provider, key) && key in f.authority.operations {
      var i :| 0 <= i < |stack| && stack[i] == f;
      if i < n { assert Attenuates(p, stack[i], stack[n]); } else { assert FrameOk(p, stack[n]); }
    }
    assert FrameOk(p, stack[n]);
  }

  /** Whatever is granted was already held. */
  lemma ScopeHoldsKey(p: Prepared, stack: Stack, caller: string, provider: string, key: string,
                      restriction: Option<ScopedRequest>, bound: ScopedRequest)
    requires EffectScope(p, stack, caller, provider, key, restriction).Ok?
    ensures key in Inherited(p, stack).authority.operations && (caller, key) in p.grants
    ensures restriction == Some(bound) ==> key in bound.authority.operations
    ensures var scope := EffectScope(p, stack, caller, provider, key, restriction).value;
      scope.authority.Within(Inherited(p, stack).authority)
  {
  }
}
