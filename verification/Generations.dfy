/** Generations: prepared compositions, loaded at most once, one of them the default for new roots. */
module GenerationModel {
  import opened Wrappers
  import opened Contract
  import opened Prepared
  import C = CellStore
  import opened Worlds
  import opened KernelModel
  import opened RootModel

  /** A generation is a candidate, resident or failed. */
  datatype Generation = Generation(prepared: Option<Prepared>, runtime: Option<Kernel>, failure: Option<Failure>) {
    predicate OneStage() {
      || (prepared.Some? && runtime.None? && failure.None?)
      || (prepared.None? && runtime.Some? && failure.None?)
      || (prepared.None? && runtime.None? && failure.Some?)
    }
  }

  datatype Reason = SelectedDefault | PinnedRoot | PhysicalTicket(ticket: nat)

  datatype Retirement = Retired | Blocked(reasons: set<Reason>)

  lemma NothingPinned(s: State, reasons: set<Reason>)
    requires reasons == {}
    requires s.activeRoot.Some? ==> PinnedRoot in reasons
    requires forall t | t in s.tickets && !s.tickets[t].quiescent :: PhysicalTicket(t) in reasons
    ensures s.activeRoot.None? && forall t | t in s.tickets :: s.tickets[t].quiescent
  {
  }

  class Generations {
    var default: Option<string>
    var generations: map<string, Generation>

    predicate Resident(id: string)
      reads this
    {
      id in generations && generations[id].runtime.Some?
    }

    /** The default is resident, and every generation is in exactly one stage. */
    ghost predicate Valid()
      reads this
    {
      && (default.Some? ==> Resident(default.value))
      && (forall id | id in generations :: generations[id].OneStage())
    }

    constructor ()
      ensures Valid() && default == None && generations == map[]
    {
      default := None;
      generations := map[];
    }

    /** `install_candidate`; `identity` is the digest of the candidate's canonical form. A second install of
        the same generation changes nothing. */
    method InstallCandidate(prepared: Prepared, identity: Result<string, Failure>) returns (r: Result<string, Failure>)
      requires Valid()
      modifies this
      ensures Valid() && default == old(default) && r == identity
      ensures identity.Err? || identity.value in old(generations) ==> generations == old(generations)
      ensures identity.Ok? && identity.value !in old(generations) ==>
        generations == old(generations)[identity.value := Generation(Some(prepared), None, None)]
    {
      if identity.Err? { return Err(identity.error); }
      var id := identity.value;
      if id !in generations { generations := generations[id := Generation(Some(prepared), None, None)]; }
      return Ok(id);
    }

    /** `activate`: a candidate is loaded once, and a failure to load is final. The branch for a
        generation that has nothing left to load is never taken. */
    method Activate(id: string) returns (r: Result<(), Failure>)
      requires Valid()
      modifies this
      ensures Valid() && default == old(default) && generations.Keys == old(generations).Keys
      ensures r.Ok? <==> Resident(id)
      ensures forall x | x in generations && (x != id || old(generations)[id].prepared.None?) ::
        generations[x] == old(generations)[x]
      ensures id !in generations ==> r == Err(Failure(MissingBinding))
      ensures r.Err? && id in generations ==> generations[id] == Generation(None, None, Some(r.error))
      ensures r.Ok? && !old(Resident(id)) ==>
        var k := generations[id].runtime.value;
        fresh(k) && fresh(k.cells) && AtRest(k) && old(generations)[id].prepared == Some(k.prepared)
    {
      if id !in generations { return Err(Failure(MissingBinding)); }
      var g := generations[id];
      if g.runtime.Some? { return Ok(()); }
      if g.failure.Some? { return Err(g.failure.value); }
      if g.prepared.None? {
        assert false;
      }
      var failure: Option<Failure> := *;
      if failure.Some? {
        generations := generations[id := Generation(None, None, failure)];
        return Err(failure.value);
      }
      var cells := new C.Cells([], map[]);
      var kernel := new Kernel(g.prepared.value, Anything, cells);
      StartsAtRest(kernel.state, kernel.handed);
      generations := generations[id := Generation(None, Some(kernel), None)];
      return Ok(());
    }

    /** `promote`: the default changes only once the generation is resident. */
    method Promote(id: string) returns (r: Result<(), Failure>)
      requires Valid()
      modifies this
      ensures Valid() && generations.Keys == old(generations).Keys
      ensures r.Ok? <==> Resident(id)
      ensures default == if r.Ok? then Some(id) else old(default)
    {
      r := Activate(id);
      if r.Ok? { default := Some(id); }
    }

    /** `admit_default_root` and `admit_root_on`: only a resident generation admits roots. */
    method AdmitRootOn(id: string, entry: Selection, scope: ScopedRequest) returns (r: Result<Root, Failure>)
      requires Valid() && (Resident(id) ==> Between(generations[id].runtime.value))
      modifies if Resident(id) then {generations[id].runtime.value} else {}
      ensures Valid() && default == old(default) && generations == old(generations)
      ensures !Resident(id) ==> r == Err(Failure(MissingBinding))
      ensures Resident(id) ==> (r.Ok? <==> old(Admissible(generations[id].runtime.value, entry, scope)))
      ensures Resident(id) && r.Err? ==> generations[id].runtime.value.state == old(generations[id].runtime.value.state)
      ensures r.Ok? ==> r.value.scope == scope && r.value.entry == entry
      ensures r.Ok? ==> Resident(id) && r.value.kernel == generations[id].runtime.value && r.value.Held()
      ensures Resident(id) ==> Between(generations[id].runtime.value)
      ensures Resident(id) && old(AtRest(generations[id].runtime.value)) ==> AtRest(generations[id].runtime.value)
    {
      if !Resident(id) { return Err(Failure(MissingBinding)); }
      r := AdmitRoot(generations[id].runtime.value, entry, scope);
    }

    function Blockers(id: string): set<Reason>
      reads this, if Resident(id) then {generations[id].runtime.value} else {}
    {
      (if default == Some(id) then {SelectedDefault} else {})
      + if !Resident(id) then {}
        else
          var s := generations[id].runtime.value.state;
          (if s.activeRoot.Some? then {PinnedRoot} else {})
          + set t | t in s.tickets && !s.tickets[t].quiescent :: PhysicalTicket(t)
    }

    /** `retire`: never the default generation, never over an admitted root or live native work. A
        retired kernel has been shut down; a failure of its native code to stop is still reported. */
    method Retire(id: string) returns (r: Result<Retirement, Failure>)
      requires Valid() && (Resident(id) ==> Between(generations[id].runtime.value))
      modifies this, if Resident(id) then {generations[id].runtime.value, generations[id].runtime.value.cells} else {}
      ensures Valid() && default == old(default)
      ensures id !in old(generations) ==> r == Err(Failure(MissingBinding)) && generations == old(generations)
      ensures id in old(generations) ==>
        if old(Blockers(id)) != {} then r == Ok(Blocked(old(Blockers(id)))) && generations == old(generations)
        else generations == old(generations) - {id} && (r == Ok(Retired) || r.Err?)
      ensures id in old(generations) && id !in generations ==>
        && old(default) != Some(id)
        && (old(Resident(id)) ==>
              var k := old(generations)[id].runtime.value;
              && old(k.state).activeRoot.None? && old(k.state).tickets == map[]
              && k.state == old(k.state).(stopped := true) && AtRest(k))
      ensures old(Resident(id)) && id in generations ==>
        generations[id].runtime.value.state == old(generations[id].runtime.value.state)
    {
      if id !in generations { return Err(Failure(MissingBinding)); }
      var reasons := Blockers(id);
      if reasons != {} { return Ok(Blocked(reasons)); }
      assert default == Some(id) ==> SelectedDefault in reasons;
      var g := generations[id];
      generations := generations - {id};
      if g.runtime.None? { return Ok(Retired); }
      var k := g.runtime.value;
      NothingPinned(k.state, reasons);
      NoRootNoTickets(k.prepared, k.Now());
      var stopped := Shutdown(k);
      return if stopped.Err? then Err(stopped.error) else Ok(Retired);
    }
  }
}
