/** The state request vocabulary. */
module StateRequests {
  import opened Wrappers
  import opened Bytes
  import opened Values
  import opened CellStore

  datatype StateRequest =
    | Create(property: seq<byte>, initial: Value)
    | Read(location: Location)
    | CompareExchange(edit: Edit)
    | Subscribe(location: Location)
    | Next(cursor: u64)
    | Unsubscribe(cursor: u64)
    | Batch(edits: seq<Edit>)

  /** References in the order that derives from their identities. */
  predicate LocationLess(a: Location, b: Location) {
    || Less(a.generation, b.generation)
    || (a.generation == b.generation
        && (|| Less(a.owner, b.owner)
            || (a.owner == b.owner
                && (|| Less(a.cell, b.cell)
                    || (a.cell == b.cell && Less(a.schema, b.schema))))))
  }

  predicate Ascending(edits: seq<Edit>) {
    forall i | 0 <= i < |edits| - 1 :: LocationLess(edits[i].location, edits[i + 1].location)
  }

  lemma LocationLessTransitive(a: Location, b: Location, c: Location)
    requires LocationLess(a, b) && LocationLess(b, c)
    ensures LocationLess(a, c)
  {
    if Less(a.generation, b.generation) && Less(b.generation, c.generation) {
      LessTransitive(a.generation, b.generation, c.generation);
    }
    if Less(a.owner, b.owner) && Less(b.owner, c.owner) { LessTransitive(a.owner, b.owner, c.owner); }
    if Less(a.cell, b.cell) && Less(b.cell, c.cell) { LessTransitive(a.cell, b.cell, c.cell); }
    if Less(a.schema, b.schema) && Less(b.schema, c.schema) { LessTransitive(a.schema, b.schema, c.schema); }
  }

  lemma {:induction false} AscendingOrder(edits: seq<Edit>, i: nat, j: nat)
    requires Ascending(edits) && i < j < |edits|
    ensures LocationLess(edits[i].location, edits[j].location)
    decreases j - i
  {
    if i + 1 < j {
      AscendingOrder(edits, i, j - 1);
      assert LocationLess(edits[j - 1].location, edits[j - 1 + 1].location);
      LocationLessTransitive(edits[i].location, edits[j - 1].location, edits[j].location);
    } else {
      assert LocationLess(edits[i].location, edits[i + 1].location);
    }
  }

  /** A strictly ascending batch names each location once. */
  lemma AscendingDistinct(edits: seq<Edit>)
    requires Ascending(edits)
    ensures forall i, j | 0 <= i < j < |edits| :: edits[i].location != edits[j].location
  {
    forall i, j | 0 <= i < j < |edits| ensures edits[i].location != edits[j].location {
      AscendingOrder(edits, i, j);
      var l := edits[i].location;
      LessIrreflexive(l.generation);
      LessIrreflexive(l.owner);
      LessIrreflexive(l.cell);
      LessIrreflexive(l.schema);
    }
  }

  // ----- carrying a request out

  function SnapshotValue(s: Snapshot): Value { List([U64(s.revision), U64(s.epoch), s.value]) }

  function SnapshotValues(snapshots: seq<Snapshot>): (values: seq<Value>)
    ensures |values| == |snapshots|
    ensures forall i | 0 <= i < |snapshots| :: values[i] == SnapshotValue(snapshots[i])
  {
    seq(|snapshots|, i requires 0 <= i < |snapshots| => SnapshotValue(snapshots[i]))
  }

  predicate Writes(request: StateRequest) { request.CompareExchange? || request.Batch? }

  /** Committed state advances: commits are appended, and cells keep their identity. */
  ghost predicate Advances(a: map<Id, Cell>, h: seq<set<Id>>, b: map<Id, Cell>, k: seq<set<Id>>) {
    && h <= k
    && b.Keys == a.Keys
    && forall id | id in a ::
         b[id].location == a[id].location && b[id].owner == a[id].owner && b[id].property == a[id].property
  }

  lemma NothingAdvanced(a: map<Id, Cell>, h: seq<set<Id>>)
    ensures Advances(a, h, a, h)
  {
  }

  lemma CommitAdvances(a: map<Id, Cell>, h: seq<set<Id>>, b: map<Id, Cell>, edits: seq<Edit>, epoch: u64)
    requires Applied(a, b, edits, epoch)
    ensures Advances(a, h, b, h + [Touched(edits)])
  {
    forall id | id in a
      ensures b[id].location == a[id].location && b[id].owner == a[id].owner && b[id].property == a[id].property
    {
      IdentityKept(a, b, edits, epoch, id);
    }
  }

  /** The edits of a write. */
  function EditsOf(request: StateRequest): seq<Edit>
    requires Writes(request)
  {
    if request.CompareExchange? then [request.edit] else request.edits
  }

  function ReadAnswer(r: Result<Snapshot, AccessError>): Result<Value, AccessError> {
    match r case Ok(s) => Ok(SnapshotValue(s)) case Err(e) => Err(e)
  }

  /** What becomes of a request that is carried out, and what its answer says. A write is one commit of
      all its edits or of none; everything else leaves the cells alone and reads the present snapshot. */
  twostate predicate Carried(
    cells: Cells, root: nat, caller: string, ticket: Option<nat>, request: StateRequest,
    new r: Result<Value, AccessError>)
    requires old(cells.Valid())
    reads cells
  {
    && (request.Create? ==> r == Err(Denied))
    && (Writes(request) ==>
          (r.Ok? <==> old(cells.epoch) < MAX_U64 && forall e | e in EditsOf(request) :: old(cells.Obstacle(e)) == None))
    && (Writes(request) && r.Ok? ==>
          && cells.epoch == old(cells.epoch) + 1
          && Applied(old(cells.cells), cells.cells, EditsOf(request), cells.epoch)
          && cells.history == old(cells.history) + [Touched(EditsOf(request))])
    && (request.CompareExchange? && r.Err? ==>
          r.error == if old(cells.epoch) == MAX_U64 then EpochExhausted else old(cells.Obstacle(request.edit)).value)
    && (request.CompareExchange? && r.Ok? ==>
          request.edit.expected < MAX_U64
          && r.value == SnapshotValue(Snapshot(request.edit.expected + 1, cells.epoch, request.edit.value)))
    && (request.Batch? && r.Ok? ==>
          exists snapshots :: Committed(request.edits, cells.epoch, snapshots)
                              && r.value == List([U64(cells.epoch), List(SnapshotValues(snapshots))]))
    && (!(Writes(request) && r.Ok?) ==>
          cells.cells == old(cells.cells) && cells.epoch == old(cells.epoch) && cells.history == old(cells.history))
    && (request.Read? ==> r == old(ReadAnswer(cells.Read(request.location))))
    && (request.Subscribe? ==>
          (r.Ok? <==>
             |old(cells.subscriptions)| < 65536 && old(cells.Read(request.location)).Ok?
               && old(cells.nextCursor) < MAX_U64))
    && (request.Subscribe? && r.Err? ==>
          r.error == if |old(cells.subscriptions)| >= 65536 then Denied
                     else if old(cells.Read(request.location)).Err? then old(cells.Read(request.location)).error
                     else RevisionExhausted)
    && (request.Subscribe? && r.Ok? ==>
          && old(cells.Read(request.location)).Ok?
          && cells.nextCursor == old(cells.nextCursor) + 1 <= MAX_U64 && cells.nextCursor in cells.subscriptions
          && (var now := old(cells.Read(request.location)).value;
              && r.value == List([U64(cells.nextCursor), SnapshotValue(now)])
              && cells.subscriptions == old(cells.subscriptions)[
                   cells.nextCursor := Subscription(root, caller, ticket, request.location, now.revision)]))
    && (request.Unsubscribe? ==>
          && (r.Ok? <==> old(cells.Cursor(root, caller, ticket, request.cursor)).Ok?)
          && (r.Err? ==> r.error == old(cells.Cursor(root, caller, ticket, request.cursor)).error)
          && (r.Ok? ==> r.value == Null && cells.subscriptions == old(cells.subscriptions) - {request.cursor}))
    && (request.Next? ==>
          (r.Ok? <==> old(cells.Cursor(root, caller, ticket, request.cursor)).Ok?
                      && old(cells.Read(cells.subscriptions[request.cursor].location)).Ok?))
    && (request.Next? && r.Err? ==>
          r.error == if old(cells.Cursor(root, caller, ticket, request.cursor)).Err?
                     then old(cells.Cursor(root, caller, ticket, request.cursor)).error
                     else old(cells.Read(cells.subscriptions[request.cursor].location)).error)
    && (request.Next? && r.Ok? ==>
          var seen := old(cells.subscriptions)[request.cursor];
          var now := old(cells.Read(seen.location)).value;
          && r.value == (if now.revision == seen.revision then Null else SnapshotValue(now))
          && cells.subscriptions == old(cells.subscriptions)[request.cursor := seen.(revision := now.revision)])
    && (r.Err? || !(request.Subscribe? || request.Next? || request.Unsubscribe?) ==>
          cells.subscriptions == old(cells.subscriptions) && cells.nextCursor == old(cells.nextCursor))
  }

  /** The part of `apply_state_request` for writes: one commit. */
  method Write(cells: Cells, root: nat, caller: string, ticket: Option<nat>, request: StateRequest)
    returns (r: Result<Value, AccessError>)
    requires cells.Valid() && Writes(request) && (request.Batch? ==> Ascending(request.edits))
    modifies cells
    ensures cells.Valid()
    ensures Advances(old(cells.cells), old(cells.history), cells.cells, cells.history)
    ensures |cells.history| <= |old(cells.history)| + 1
    ensures Carried(cells, root, caller, ticket, request, r)
  {
    hide Advances, Applied, Committed, SnapshotValue, SnapshotValues, Touched, ReadAnswer;
    hide Cells.Read, Cells.Cursor, Cells.Lookup, Cells.Valid;
    ghost var a, h := cells.cells, cells.history;
    NothingAdvanced(a, h);
    match request {
      case CompareExchange(edit) =>
        var committed := cells.CompareExchange(edit);
        if committed.Err? { return Err(committed.error); }
        CommitAdvances(a, h, cells.cells, [edit], cells.epoch);
        return Ok(SnapshotValue(committed.value));
      case Batch(edits) =>
        AscendingDistinct(edits);
        var committed := cells.Commit(edits);
        if committed.Err? { return Err(committed.error); }
        CommitAdvances(a, h, cells.cells, edits, cells.epoch);
        return Ok(List([U64(committed.value.0), List(SnapshotValues(committed.value.1))]));
    }
  }

  /** `apply_state_request`: only a successful write changes a cell, and it is one commit. */
  method Apply(cells: Cells, root: nat, caller: string, ticket: Option<nat>, request: StateRequest)
    returns (r: Result<Value, AccessError>)
    requires cells.Valid() && (request.Batch? ==> Ascending(request.edits))
    modifies cells
    ensures cells.Valid()
    ensures Advances(old(cells.cells), old(cells.history), cells.cells, cells.history)
    ensures |cells.history| <= |old(cells.history)| + 1
    ensures Carried(cells, root, caller, ticket, request, r)
  {
    hide Advances, Applied, Committed, SnapshotValue, SnapshotValues, Touched;
    NothingAdvanced(cells.cells, cells.history);
    if Writes(request) {
      r := Write(cells, root, caller, ticket, request);
      return;
    }
    match request {
      case Create(_, _) => return Err(Denied);
      case Read(location) =>
        var snapshot := cells.Read(location);
        return match snapshot case Ok(s) => Ok(SnapshotValue(s)) case Err(e) => Err(e);
      case Subscribe(location) =>
        var subscribed := cells.Subscribe(root, caller, ticket, location);
        if subscribed.Err? { return Err(subscribed.error); }
        return Ok(List([U64(subscribed.value.0), SnapshotValue(subscribed.value.1)]));
      case Next(cursor) =>
        var next := cells.Next(root, caller, ticket, cursor);
        return match next
          case Err(e) => Err(e)
          case Ok(None) => Ok(Null)
          case Ok(Some(s)) => Ok(SnapshotValue(s));
      case Unsubscribe(cursor) =>
        var gone := cells.Unsubscribe(root, caller, ticket, cursor);
        return match gone case Ok(_) => Ok(Null) case Err(e) => Err(e);
    }
  }
}
