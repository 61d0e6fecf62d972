/** Committed state: cells, their revisions and epochs, and the subscriptions to them. */
module CellStore {
  import opened Wrappers
  import opened Contract
  import opened Bytes
  import opened Values
  import Schemas
  import ValueCodec

  datatype AccessError =
    | Conflict(expected: u64, current: u64)
    | OwnerGone | StaleReference | SchemaMismatch | Denied | RevisionExhausted | EpochExhausted

  datatype Property = Property(id: string, schema: Schemas.ValueSchema, get: bool, set_: bool, watch: bool)

  /** One cell with its current snapshot. */
  datatype Cell = Cell(
    location: Location, owner: string, property: Property, revision: u64, epoch: u64, value: Value)
  {
    function Name(): string { owner + "/" + property.id }
  }

  datatype Edit = Edit(location: Location, expected: u64, value: Value)

  datatype Subscription = Subscription(
    root: nat, caller: string, ticket: Option<nat>, location: Location, revision: u64)

  datatype Snapshot = Snapshot(revision: u64, epoch: u64, value: Value)

  type Id = seq<byte>

  // ----- the history of commits, as seen by one cell

  /** How many commits touched cell `id`. */
  ghost function Count(history: seq<set<Id>>, id: Id): nat {
    if history == [] then 0
    else Count(history[..|history| - 1], id) + if id in history[|history| - 1] then 1 else 0
  }

  /** The number of the last commit that touched cell `id`; 0 if none did. */
  ghost function LastTouch(history: seq<set<Id>>, id: Id): (n: nat)
    ensures n <= |history|
    ensures n > 0 ==> id in history[n - 1]
    ensures forall k | n <= k < |history| :: id !in history[k]
  {
    if history == [] then 0
    else if id in history[|history| - 1] then |history|
    else LastTouch(history[..|history| - 1], id)
  }

  lemma {:induction false} OneMoreCommit(history: seq<set<Id>>, touched: set<Id>, id: Id)
    ensures Count(history + [touched], id) == Count(history, id) + if id in touched then 1 else 0
    ensures LastTouch(history + [touched], id)
         == if id in touched then |history| + 1 else LastTouch(history, id)
  {
    assert (history + [touched])[..|history|] == history;
  }

  lemma {:induction false} UntouchedCount(history: seq<set<Id>>, id: Id)
    requires forall k | 0 <= k < |history| :: id !in history[k]
    ensures Count(history, id) == 0 && LastTouch(history, id) == 0
  {
    if history != [] { UntouchedCount(history[..|history| - 1], id); }
  }

  /** The cursors that are left when those of the given tickets are gone. */
  function Silenced(subscriptions: map<nat, Subscription>, gone: set<nat>): map<nat, Subscription> {
    map c | c in subscriptions && !(subscriptions[c].ticket.Some? && subscriptions[c].ticket.value in gone) ::
      subscriptions[c]
  }

  /** Of the tickets `a` first only `b` are left, and then only `c`. */
  lemma SilencedTwice(subscriptions: map<nat, Subscription>, a: set<nat>, b: set<nat>, c: set<nat>, id: nat)
    requires c <= b <= a
    ensures Silenced(Silenced(subscriptions, a - b + {id}), b - c) == Silenced(subscriptions, a - c + {id})
  {
    assert a - b + {id} + (b - c) == a - c + {id};
  }

  class Cells {
    const generation: seq<byte>
    var owners: map<string, seq<byte>>
    var cells: map<Id, Cell>
    var subscriptions: map<nat, Subscription>
    var nextCursor: nat
    var epoch: u64
    /** The cells touched by each successful commit, in order. */
    ghost var history: seq<set<Id>>

    /** A cell's revision counts its commits, and its epoch is that of the last of them. */
    ghost predicate CellOk(id: Id)
      requires id in cells
      reads this`cells, this`owners, this`history
    {
      CellWas(cells, history, id)
    }

    ghost predicate CellWas(cells: map<Id, Cell>, history: seq<set<Id>>, id: Id)
      requires id in cells
      reads this`owners
    {
      var c := cells[id];
      && c.location.cell == id
      && c.location.generation == generation
      && c.owner in owners && owners[c.owner] == c.location.owner
      && c.revision == Count(history, id)
      && c.epoch == LastTouch(history, id)
      && Schemas.Accepts(c.property.schema, c.value)
    }

    ghost predicate Valid()
      reads this`cells, this`owners, this`history, this`epoch
    {
      && epoch == |history|
      && (forall id {:trigger CellOk(id)} | id in cells :: CellOk(id))
      && (forall a, b | a in cells && b in cells && cells[a].Name() == cells[b].Name()
                        && cells[a].owner == cells[b].owner :: a == b)
      && (owners != map[] ==> forall k, id | 0 <= k < |history| && id in history[k] :: id in cells)
    }

    constructor (generation: seq<byte>, owners: map<string, seq<byte>>)
      ensures Valid() && cells == map[] && subscriptions == map[] && epoch == 0
      ensures this.generation == generation && this.owners == owners
    {
      this.generation := generation;
      this.owners := owners;
      cells := map[];
      subscriptions := map[];
      nextCursor := 0;
      epoch := 0;
      history := [];
    }

    /** `create`: a property's cell, at revision 0. `cell` and `schema` are the digests that name the cell and
        its schema, or the failure to make them. */
    method Create(plugin: string, property: Property, initial: Value, cell: Result<Id, Failure>,
                  schema: Result<seq<byte>, Failure>)
      returns (r: Result<Location, Failure>)
      requires Valid() && plugin in owners
      modifies this`cells
      ensures Valid()
      ensures r.Err? ==> cells == old(cells)
      ensures r.Ok? <==>
        && |old(cells)| < 65536 && Schemas.Accepts(property.schema, initial) && ValueCodec.Encode(initial).Ok?
        && (forall x | x in old(cells) :: old(cells)[x].owner != plugin || old(cells)[x].property.id != property.id)
        && cell.Ok? && cell.value !in old(cells) && schema.Ok?
      ensures r.Ok? ==> cells == old(cells)[cell.value := Cell(r.value, plugin, property, 0, 0, initial)]
      ensures r.Ok? ==> r.value == Location(generation, owners[plugin], cell.value, schema.value)
    {
      hide ValueCodec.Encode;
      if |cells| >= 65536
         || (exists c | c in cells.Values :: c.owner == plugin && c.property.id == property.id)
         || !Schemas.Accepts(property.schema, initial)
      {
        return Err(Failure(SchemaRejected));
      }
      var encoded := ValueCodec.EncodeValue(initial);
      if encoded.Err? { return Err(encoded.error); }
      if cell.Err? { return Err(cell.error); }
      var id := cell.value;
      if id in cells { return Err(Failure(InfrastructureFailure)); }
      if schema.Err? { return Err(schema.error); }
      var location: Location := Location(generation, owners[plugin], id, schema.value);
      ghost var before := cells;
      cells := cells[id := Cell(location, plugin, property, 0, 0, initial)];
      UntouchedCount(history, id);
      forall x | x in cells ensures CellOk(x) {
        if x != id { assert old(CellOk(x)); }
      }
      forall a | a in before && before[a].owner == plugin ensures before[a].Name() != cells[id].Name() {
        assert before[a] in before.Values;
        assert before[a].Name()[|plugin| + 1..] == before[a].property.id;
        assert cells[id].Name()[|plugin| + 1..] == property.id;
      }
      return Ok(location);
    }

    /** `cell`: resolves a reference, in the order of its checks. */
    function Lookup(r: Location): (c: Result<Cell, AccessError>)
      requires Valid()
      reads this`cells, this`owners, this`history, this`epoch
      ensures c.Ok? ==> r.cell in cells && c.value == cells[r.cell]
    {
      if r.generation != generation then Err(StaleReference)
      else if r.owner !in owners.Values then Err(OwnerGone)
      else if r.cell !in cells then Err(StaleReference)
      else if cells[r.cell].location.owner != r.owner then Err(StaleReference)
      else if cells[r.cell].location.schema != r.schema then Err(SchemaMismatch)
      else Ok(cells[r.cell])
    }

    /** A reference resolves exactly when it is the whole location of some cell. */
    lemma LookupExact(r: Location)
      requires Valid()
      ensures Lookup(r).Ok? <==> exists id :: id in cells && cells[id].location == r
      ensures Lookup(r) == Err(OwnerGone) <==> r.generation == generation && r.owner !in owners.Values
      ensures Lookup(r) == Err(SchemaMismatch) <==>
        r.cell in cells && cells[r.cell].location.(schema := r.schema) == r && cells[r.cell].location != r
      ensures Lookup(r).Err? ==> Lookup(r).error in {StaleReference, OwnerGone, SchemaMismatch}
    {
      if r.cell in cells {
        assert CellOk(r.cell);
        assert cells[r.cell].owner in owners;
      }
      if Lookup(r).Ok? {
        assert CellOk(r.cell);
        assert cells[r.cell].location == r;
      }
      if id :| id in cells && cells[id].location == r {
        assert CellOk(id);
        assert owners[cells[id].owner] in owners.Values;
      }
    }

    /** Distinct references that resolve name distinct cells. */
    lemma DistinctReferences(r: Location, s: Location)
      requires Valid() && Lookup(r).Ok? && Lookup(s).Ok? && r != s
      ensures r.cell != s.cell
    {
      assert CellOk(r.cell) && CellOk(s.cell);
    }

    function Read(r: Location): Result<Snapshot, AccessError>
      requires Valid()
      reads this`cells, this`owners, this`history, this`epoch
    {
      match Lookup(r)
      case Ok(c) => Ok(Snapshot(c.revision, c.epoch, c.value))
      case Err(e) => Err(e)
    }

    /** What stands in the way of one edit, if anything. */
    function Obstacle(edit: Edit): (e: Option<AccessError>)
      requires Valid()
      reads this`cells, this`owners, this`history, this`epoch
    {
      match Lookup(edit.location)
      case Err(e) => Some(e)
      case Ok(c) =>
        if !Schemas.Accepts(c.property.schema, edit.value) then Some(SchemaMismatch)
        else if edit.expected != c.revision then Some(Conflict(edit.expected, c.revision))
        else if c.revision == MAX_U64 then Some(RevisionExhausted)
        else None
    }

    /** What stands in the way of an edit: its reference does not resolve, the value does not fit the cell, another
        revision was expected than the cell has, or there is no next one. */
    lemma ObstacleMeans(edit: Edit)
      requires Valid()
      ensures var found := Lookup(edit.location);
        && (Obstacle(edit) == None <==>
              && found.Ok? && Schemas.Accepts(found.value.property.schema, edit.value)
              && edit.expected == found.value.revision < MAX_U64)
        && (found.Err? ==> Obstacle(edit) == Some(found.error))
        && (Obstacle(edit) == Some(SchemaMismatch) && found.Ok? <==>
              found.Ok? && !Schemas.Accepts(found.value.property.schema, edit.value))
        && (found.Ok? && Schemas.Accepts(found.value.property.schema, edit.value)
            && edit.expected != found.value.revision ==>
              Obstacle(edit) == Some(Conflict(edit.expected, found.value.revision)))
    {
      hide Schemas.Accepts;
    }

    /** `commit`: all of the edits, or none of them. */
    method Commit(edits: seq<Edit>) returns (r: Result<(u64, seq<Snapshot>), AccessError>)
      requires Valid()
      requires forall i, j | 0 <= i < j < |edits| :: edits[i].location != edits[j].location
      modifies this`cells, this`epoch, this`history
      ensures Valid()
      ensures r.Ok? <==> old(epoch) < MAX_U64 && forall i | 0 <= i < |edits| :: old(Obstacle(edits[i])) == None
      ensures r.Err? ==> cells == old(cells) && epoch == old(epoch) && history == old(history)
      ensures r.Err? ==>
        if old(epoch) == MAX_U64 then r.error == EpochExhausted
        else exists i | 0 <= i < |edits| ::
          && old(Obstacle(edits[i])) == Some(r.error)
          && forall j | 0 <= j < i :: old(Obstacle(edits[j])) == None
      ensures r.Ok? ==> epoch == old(epoch) + 1 == r.value.0
      ensures r.Ok? ==> Applied(old(cells), cells, edits, epoch)
      ensures r.Ok? ==> Committed(edits, epoch, r.value.1)
      ensures r.Ok? ==> history == old(history) + [Touched(edits)]
    {
      if epoch == MAX_U64 { return Err(EpochExhausted); }
      var next: u64 := epoch + 1;
      var i := 0;
      while i < |edits|
        invariant 0 <= i <= |edits|
        invariant forall k | 0 <= k < i :: Obstacle(edits[k]) == None
      {
        var obstacle := Obstacle(edits[i]);
        if obstacle.Some? { return Err(obstacle.value); }
        i := i + 1;
      }
      ClearEditsAreReady(edits);
      ghost var before, past := cells, history;
      forall id | id in cells ensures CellWas(before, past, id) { assert CellOk(id); }
      var snapshots := Install(edits, next);
      epoch := next;
      history := history + [Touched(edits)];
      CommitKeepsCells(before, past, edits);
      return Ok((next, snapshots));
    }

    /** The second half of a commit: install edits that were all found ready. */
    method Install(edits: seq<Edit>, next: u64) returns (snapshots: seq<Snapshot>)
      requires forall i | 0 <= i < |edits| :: ReadyEdit(cells, edits[i])
      requires forall i, j | 0 <= i < j < |edits| :: edits[i].location.cell != edits[j].location.cell
      modifies this`cells
      ensures Applied(old(cells), cells, edits, next)
      ensures Committed(edits, next, snapshots)
    {
      hide Applied, Touched;
      ghost var before := cells;
      NothingApplied(cells, next);
      snapshots := [];
      var i := 0;
      assert edits[..0] == [];
      while i < |edits|
        invariant 0 <= i <= |edits|
        invariant Applied(before, cells, edits[..i], next)
        invariant Committed(edits[..i], next, snapshots)
      {
        AppliedOneMore(before, cells, edits, i, next);
        var id := edits[i].location.cell;
        var c := cells[id];
        cells := cells[id := c.(revision := c.revision + 1, epoch := next, value := edits[i].value)];
        snapshots := snapshots + [Snapshot(c.revision + 1, next, edits[i].value)];
        i := i + 1;
      }
      assert edits[..i] == edits;
    }

    /** `compare_exchange`: a commit of one edit, answered with the new snapshot itself. */
    method CompareExchange(edit: Edit) returns (r: Result<Snapshot, AccessError>)
      requires Valid()
      modifies this`cells, this`epoch, this`history
      ensures Valid()
      ensures r.Ok? <==> old(epoch) < MAX_U64 && old(Obstacle(edit)) == None
      ensures r.Err? ==> cells == old(cells) && epoch == old(epoch) && history == old(history)
      ensures r.Err? ==> r.error == (if old(epoch) == MAX_U64 then EpochExhausted else old(Obstacle(edit)).value)
      ensures r.Ok? ==> edit.expected < MAX_U64 && r.value == Snapshot(edit.expected + 1, epoch, edit.value)
      ensures r.Ok? ==> epoch == old(epoch) + 1 && Applied(old(cells), cells, [edit], epoch)
      ensures r.Ok? ==> history == old(history) + [Touched([edit])]
    {
      var committed := Commit([edit]);
      if committed.Err? { return Err(committed.error); }
      assert Moved(old(cells), cells, [edit][0], epoch);
      return Read(edit.location);
    }

    /** `watched_changes_since`: the watched properties whose latest commit is younger than `after`. */
    method WatchedChangesSince(after: u64) returns (now: u64, changed: set<string>)
      requires Valid()
      ensures now == epoch
      ensures forall name :: name in changed <==>
        exists id :: id in cells && WatchedAs(id, name) && exists k | after <= k < |history| :: id in history[k]
    {
      changed := set id | id in cells && cells[id].property.watch && cells[id].epoch > after :: cells[id].Name();
      now := epoch;
      forall id | id in cells ensures cells[id].epoch > after <==>
        exists k | after <= k < |history| :: id in history[k]
      {
        assert CellOk(id);
      }
      forall name | exists id :: id in cells && WatchedAs(id, name) && exists k | after <= k < |history| ::
        id in history[k]
        ensures name in changed
      {
        var id :| id in cells && WatchedAs(id, name) && exists k | after <= k < |history| :: id in history[k];
        assert cells[id].epoch > after;
      }
    }

    ghost predicate WatchedAs(id: Id, name: string)
      requires id in cells
      reads this`cells
    {
      cells[id].property.watch && cells[id].Name() == name
    }

    /** `subscribe`: a new cursor, positioned at the current snapshot. */
    method Subscribe(root: nat, caller: string, ticket: Option<nat>, location: Location)
      returns (r: Result<(nat, Snapshot), AccessError>)
      requires Valid()
      modifies this`subscriptions, this`nextCursor
      ensures Valid()
      ensures r.Ok? <==> |old(subscriptions)| < 65536 && Read(location).Ok? && old(nextCursor) < MAX_U64
      ensures r.Err? ==> subscriptions == old(subscriptions) && nextCursor == old(nextCursor)
      ensures r.Err? ==>
        r.error == if |old(subscriptions)| >= 65536 then AccessError.Denied
                   else if Read(location).Err? then Read(location).error
                   else RevisionExhausted
      ensures r.Ok? ==> r.value.0 == nextCursor == old(nextCursor) + 1 <= MAX_U64 && Read(location) == Ok(r.value.1)
      ensures r.Ok? ==> subscriptions == old(subscriptions)[
        nextCursor := Subscription(root, caller, ticket, location, r.value.1.revision)]
    {
      if |subscriptions| >= 65536 { return Err(AccessError.Denied); }
      var found := Lookup(location);
      if found.Err? { return Err(found.error); }
      if nextCursor >= MAX_U64 { return Err(RevisionExhausted); }
      nextCursor := nextCursor + 1;
      subscriptions := subscriptions[nextCursor := Subscription(root, caller, ticket, location, found.value.revision)];
      return Ok((nextCursor, Snapshot(found.value.revision, found.value.epoch, found.value.value)));
    }

    /** `cursor`: only the subscribing root, caller and ticket may use a cursor. */
    function Cursor(root: nat, caller: string, ticket: Option<nat>, id: nat): (r: Result<Location, AccessError>)
      reads this`subscriptions
      ensures r.Ok? <==> (
        && id in subscriptions && subscriptions[id].root == root
        && subscriptions[id].caller == caller && subscriptions[id].ticket == ticket)
      ensures r.Ok? ==> r.value == subscriptions[id].location
      ensures r.Err? ==> r.error == if id in subscriptions then AccessError.Denied else StaleReference
    {
      if id !in subscriptions then Err(StaleReference)
      else if subscriptions[id].root != root || subscriptions[id].caller != caller || subscriptions[id].ticket != ticket
      then Err(AccessError.Denied)
      else Ok(subscriptions[id].location)
    }

    /** `next`: the current snapshot, unless the cursor has seen it. */
    method Next(root: nat, caller: string, ticket: Option<nat>, id: nat)
      returns (r: Result<Option<Snapshot>, AccessError>)
      requires Valid()
      modifies this`subscriptions
      ensures Valid()
      ensures r.Err? ==> subscriptions == old(subscriptions)
      ensures r.Ok? <==> old(Cursor(root, caller, ticket, id)).Ok? && Read(old(subscriptions)[id].location).Ok?
      ensures r.Err? ==>
        r.error == if old(Cursor(root, caller, ticket, id)).Err? then old(Cursor(root, caller, ticket, id)).error
                   else Read(old(subscriptions)[id].location).error
      ensures r.Ok? ==>
        var now := Read(old(subscriptions)[id].location).value;
        && subscriptions == old(subscriptions)[id := old(subscriptions)[id].(revision := now.revision)]
        && r.value == if now.revision == old(subscriptions)[id].revision then None else Some(now)
    {
      var location := Cursor(root, caller, ticket, id);
      if location.Err? { return Err(location.error); }
      var found := Lookup(location.value);
      if found.Err? { return Err(found.error); }
      var subscription := subscriptions[id];
      if found.value.revision == subscription.revision { return Ok(None); }
      subscriptions := subscriptions[id := subscription.(revision := found.value.revision)];
      return Ok(Some(Snapshot(found.value.revision, found.value.epoch, found.value.value)));
    }

    method Unsubscribe(root: nat, caller: string, ticket: Option<nat>, id: nat) returns (r: Result<(), AccessError>)
      requires Valid()
      modifies this`subscriptions
      ensures Valid()
      ensures r.Ok? <==> old(Cursor(root, caller, ticket, id)).Ok?
      ensures r.Err? ==> r.error == old(Cursor(root, caller, ticket, id)).error
      ensures subscriptions == if r.Ok? then old(subscriptions) - {id} else old(subscriptions)
    {
      var location := Cursor(root, caller, ticket, id);
      if location.Err? { return Err(location.error); }
      subscriptions := subscriptions - {id};
      return Ok(());
    }

    method ReleaseTicket(ticket: nat)
      requires Valid()
      modifies this`subscriptions
      ensures Valid()
      ensures subscriptions == Silenced(old(subscriptions), {ticket})
    {
      subscriptions := map c | c in subscriptions && subscriptions[c].ticket != Some(ticket) :: subscriptions[c];
    }

    method ReleaseRoot(root: nat)
      requires Valid()
      modifies this`subscriptions
      ensures Valid()
      ensures subscriptions
        == map c | c in old(subscriptions) && old(subscriptions)[c].root != root :: old(subscriptions)[c]
    {
      subscriptions := map c | c in subscriptions && subscriptions[c].root != root :: subscriptions[c];
    }

    method Clear()
      requires Valid()
      modifies this`cells, this`owners, this`subscriptions
      ensures Valid()
      ensures cells == map[] && owners == map[] && subscriptions == map[]
    {
      cells := map[];
      owners := map[];
      subscriptions := map[];
    }

    /** After a commit the revisions and epochs still tell the history. */
    lemma CommitKeepsCells(before: map<Id, Cell>, past: seq<set<Id>>, edits: seq<Edit>)
      requires Applied(before, cells, edits, epoch)
      requires epoch == |past| + 1 && history == past + [Touched(edits)]
      requires forall id | id in before :: CellWas(before, past, id)
      requires forall a, b | a in before && b in before && before[a].Name() == before[b].Name()
                             && before[a].owner == before[b].owner :: a == b
      requires owners != map[] ==> forall k, id | 0 <= k < |past| && id in past[k] :: id in before
      ensures Valid()
    {
      forall id | id in cells ensures CellOk(id) {
        assert CellWas(before, past, id);
        IdentityKept(before, cells, edits, epoch, id);
        OneMoreCommit(past, Touched(edits), id);
      }
      forall a, b | a in cells && b in cells && cells[a].Name() == cells[b].Name()
                    && cells[a].owner == cells[b].owner
        ensures a == b
      {
        IdentityKept(before, cells, edits, epoch, a);
        IdentityKept(before, cells, edits, epoch, b);
      }
    }

    /** Edits without an obstacle name distinct cells and can all be applied. */
    lemma ClearEditsAreReady(edits: seq<Edit>)
      requires Valid()
      requires forall i, j | 0 <= i < j < |edits| :: edits[i].location != edits[j].location
      requires forall i | 0 <= i < |edits| :: Obstacle(edits[i]) == None
      ensures forall i | 0 <= i < |edits| :: ReadyEdit(cells, edits[i])
      ensures forall i, j | 0 <= i < j < |edits| :: edits[i].location.cell != edits[j].location.cell
    {
      forall i, j | 0 <= i < j < |edits| ensures edits[i].location.cell != edits[j].location.cell {
        assert Obstacle(edits[i]) == None && Obstacle(edits[j]) == None;
        DistinctReferences(edits[i].location, edits[j].location);
      }
    }
  }

  /** The snapshots a commit reports, one for each edit. */
  ghost predicate Committed(edits: seq<Edit>, epoch: u64, snapshots: seq<Snapshot>) {
    && |snapshots| == |edits|
    && forall i | 0 <= i < |edits| ::
         && edits[i].expected < MAX_U64
         && snapshots[i] == Snapshot(edits[i].expected + 1, epoch, edits[i].value)
  }

  /** The cells that some edits name. */
  ghost function Touched(edits: seq<Edit>): set<Id> { set i | 0 <= i < |edits| :: edits[i].location.cell }

  ghost predicate ReadyEdit(cells: map<Id, Cell>, e: Edit) {
    && e.location.cell in cells
    && e.expected == cells[e.location.cell].revision < MAX_U64
    && Schemas.Accepts(cells[e.location.cell].property.schema, e.value)
  }

  /** The edited cell moves from the expected revision to the next one, under the new epoch. */
  ghost predicate Moved(before: map<Id, Cell>, after: map<Id, Cell>, e: Edit, epoch: u64) {
    && ReadyEdit(before, e)
    && e.location.cell in after
    && after[e.location.cell] == before[e.location.cell].(
         revision := e.expected + 1, epoch := epoch, value := e.value)
  }

  /** Every edited cell has moved and every other cell stays. */
  ghost predicate Applied(before: map<Id, Cell>, after: map<Id, Cell>, edits: seq<Edit>, epoch: u64) {
    && after.Keys == before.Keys
    && (forall i | 0 <= i < |edits| :: Moved(before, after, edits[i], epoch))
    && (forall id | id in before && id !in Touched(edits) :: after[id] == before[id])
  }

  lemma NothingApplied(cells: map<Id, Cell>, epoch: u64)
    ensures Applied(cells, cells, [], epoch)
  {
  }

  lemma AppliedOneMore(before: map<Id, Cell>, after: map<Id, Cell>, edits: seq<Edit>, k: nat, epoch: u64)
    requires k < |edits| && Applied(before, after, edits[..k], epoch) && ReadyEdit(before, edits[k])
    requires forall i | 0 <= i < k :: edits[i].location.cell != edits[k].location.cell
    ensures edits[k].location.cell in after && after[edits[k].location.cell] == before[edits[k].location.cell]
    ensures Applied(before,
                    after[edits[k].location.cell := before[edits[k].location.cell].(
                      revision := edits[k].expected + 1, epoch := epoch, value := edits[k].value)],
                    edits[..k + 1], epoch)
  {
    var e := edits[k];
    var id := e.location.cell;
    var moved := after[id := before[id].(revision := e.expected + 1, epoch := epoch, value := e.value)];
    forall i | 0 <= i < k + 1 ensures Moved(before, moved, edits[i], epoch) {
      if i < k { assert Moved(before, after, edits[..k][i], epoch); }
    }
    forall x | x in before && x !in Touched(edits[..k + 1]) ensures moved[x] == before[x] {
      forall i | 0 <= i < k + 1 ensures edits[i].location.cell != x {
        assert edits[..k + 1][i].location.cell in Touched(edits[..k + 1]);
      }
      assert x !in Touched(edits[..k]);
    }
  }

  /** A commit changes no cell's location, owner or property. */
  lemma IdentityKept(before: map<Id, Cell>, after: map<Id, Cell>, edits: seq<Edit>, epoch: u64, id: Id)
    requires Applied(before, after, edits, epoch) && id in before
    ensures after[id].location == before[id].location && after[id].owner == before[id].owner
    ensures after[id].property == before[id].property
    ensures Schemas.Accepts(before[id].property.schema, before[id].value)
      ==> Schemas.Accepts(after[id].property.schema, after[id].value)
    ensures after[id].revision == before[id].revision + if id in Touched(edits) then 1 else 0
    ensures after[id].epoch == if id in Touched(edits) then epoch else before[id].epoch
  {
    if id in Touched(edits) {
      var i :| 0 <= i < |edits| && edits[i].location.cell == id;
      assert Moved(before, after, edits[i], epoch);
    }
  }
}
