/** One analyze request on the producer, as the source runs it: a demand transaction, a
materialisation, a forced full one when no exact manifest exists, publication or rollback
(internal/typefacts/session.go). */
module ProducerSessions {
  import opened SortedRows
  import opened Facts
  import opened Oracles
  import opened Engine
  import opened DemandStores
  import opened DemandRuns
  import opened DemandClosures
  import opened ContributionStores

  /** The request the session state machine sees: runs grouped by path, in canonical form. */
  ghost function RequestOf(
    clean: string -> string, generation: nat, reset: bool, token: nat, changes: seq<EntityDemand>, removed: seq<Path>): Request
  {
    Request(
      generation, reset, token,
      map path | path in ChangedPaths(clean, changes) :: Canonical(clean, RunAt(clean, changes, path)),
      set path | path in Cleaned(clean, removed))
  }

  function ChangedPaths(clean: string -> string, changes: seq<EntityDemand>): set<Path> {
    set demand | demand in changes :: clean(demand.location.path)
  }

  /** The canonical run a change list gives a path. */
  function RequestRun(clean: string -> string, changes: seq<EntityDemand>, path: Path): Option<Run> {
    if path in ChangedPaths(clean, changes) then Some(Canonical(clean, RunAt(clean, changes, path))) else None
  }

  lemma {:induction false} RunAtPresent(clean: string -> string, changes: seq<EntityDemand>, path: Path)
    ensures RunAt(clean, changes, path) != [] <==> path in ChangedPaths(clean, changes)
  {
    if changes != [] {
      RunAtPresent(clean, changes[1..], path);
      assert changes == [changes[0]] + changes[1..];
      assert ChangedPaths(clean, changes) == {clean(changes[0].location.path)} + ChangedPaths(clean, changes[1..]);
    }
  }

  /** Where the steps around the materialisations may stop with an error or a cancellation. */
  datatype Faults = Faults(first: Fault, cancelled: bool, second: Fault, late: bool)

  class ProducerSession {
    const closure: DemandClosure
    const demands: RetainedDemandStore
    var token: nat
    var header: Option<nat>

    ghost predicate Valid()
      reads this, closure, closure.store, demands
    {
      closure.Valid() && Sorted(demands.groups)
    }

    ghost function State(): Session
      reads this, closure, closure.store, demands
      requires Valid()
    {
      Session(closure.State(), AsMap(demands.groups), token, header)
    }

    constructor ()
      ensures Valid() && fresh(closure) && fresh(closure.store) && fresh(demands)
      ensures State() == Session(Closure(1, None, None, None, map[], None, None), map[], 0, None)
    {
      closure := new DemandClosure();
      demands := new RetainedDemandStore();
      token, header := 0, None;
    }

    method Update(invalid: set<Path>)
      requires Valid()
      modifies closure, closure.store
      ensures Valid() && State() == old(State()).(closure := Updated(old(State()).closure, invalid))
    {
      closure.Update(invalid);
    }

    /** Runs the named demand changes and returns the transaction that can undo them. */
    method Begin(clean: string -> string, changes: seq<EntityDemand>, removed: seq<Path>, reset: bool, ghost r: Request)
      returns (transaction: Transaction, named: set<Path>)
      requires Valid() && Idempotent(clean)
      requires r == RequestOf(clean, r.generation, reset, r.token, changes, removed)
      modifies demands
      ensures fresh(transaction) && transaction.store == demands && transaction.Active()
      ensures transaction.base == old(demands.groups)
      ensures named == Named(r) && AsMap(demands.groups) == NextGroups(old(State()), r)
    {
      var plainRuns := ChangedRuns(clean, changes);
      var changedRuns := CanonicalRuns(clean, changes, plainRuns);
      transaction := new Transaction(clean, demands, changedRuns, removed, reset);
      named := set path | path in transaction.changedPaths;
      RequestFields(clean, r.generation, reset, r.token, changes, removed);
      BeginMeaning(clean, changes, removed, r, changedRuns, old(demands.groups), demands.groups, named, old(State()));
    }

    method CanonicalRuns(clean: string -> string, ghost changes: seq<EntityDemand>, plainRuns: seq<DemandGroup>)
      returns (changedRuns: seq<DemandGroup>)
      requires Idempotent(clean) && Grouped(clean, changes, plainRuns)
      ensures Sorted(changedRuns)
      ensures forall path :: Find(changedRuns, path) == RequestRun(clean, changes, path)
    {
      changedRuns := [];
      for index := 0 to |plainRuns|
        invariant |changedRuns| == index
        invariant forall i :: 0 <= i < index ==> changedRuns[i] == Row(plainRuns[i].key, Canonical(clean, plainRuns[i].value))
      {
        var path := plainRuns[index].key;
        CleanKey(clean, changes, plainRuns, index);
        var run := CanonicalDemandRun(clean, path, plainRuns[index].value);
        changedRuns := changedRuns + [Row(path, run)];
      }
      forall i, j | 0 <= i < j < |changedRuns| ensures Order.Less(changedRuns[i].key, changedRuns[j].key) {
        assert Order.Less(plainRuns[i].key, plainRuns[j].key);
      }
      forall path ensures Find(changedRuns, path) == RequestRun(clean, changes, path) {
        RunAtPresent(clean, changes, path);
        FindMapped(clean, plainRuns, changedRuns, path);
      }
    }

    /** Rolls the demands back and drops every derived cache. */
    method Abandon(transaction: Transaction)
      requires Valid() && transaction.store == demands && transaction.Active() && Sorted(transaction.base)
      modifies transaction, demands, closure, closure.store
      ensures Valid() && demands.groups == transaction.base
      ensures closure.State() == ResetClosure(old(closure.State()))
    {
      transaction.Rollback();
      closure.ResetAnalysisState();
    }

    /** Builds the table and its transition. Without an exact manifest a delta cannot be
    planned: everything is dropped, rebuilt once and sent as a full replacement. */
    method Tabulate(o: Oracle, named: set<Path>, reset: bool, faults: Faults, ghost s: Session, ghost r: Request)
      returns (ok: bool, transition: Transition)
      requires Valid() && Lawful(o)
      requires s == Session(closure.State(), s.groups, token, header)
      requires named == Named(r) && r.reset == reset && AsMap(demands.groups) == NextGroups(s, r)
      modifies closure, closure.store
      ensures Valid() && closure.generation == old(closure.generation)
      ensures ok ==> closure.State() == AnalyzedClosure(s, o, r) && transition == AnalyzedTransition(s, o, r)
      ensures ok ==> closure.table.Some?
      ensures faults == Faults(NoFault, false, NoFault, false) ==> ok
    {
      hide Tabled, BeginDemands, FullOps, SparseOps, NextGroups, Named, AsMap, Find, Order.Less;
      transition := Full(0, map[]);
      ok := closure.DemandTable(o, demands.groups, named, faults.first);
      if !ok { return; }
      if faults.cancelled { ok := false; return; }
      ghost var first := closure.State();
      assert first == Tabled(o, BeginDemands(s.closure, Named(r)), NextGroups(s, r));
      var delta := !reset && header.Some?;
      if delta && closure.table.value.manifest.None? {
        closure.ResetAnalysisState();
        ok := closure.DemandTable(o, demands.groups, named, faults.second);
        if ok {
          assert closure.State() == Tabled(o, BeginDemands(ResetClosure(first), Named(r)), NextGroups(s, r));
          transition := Full(closure.table.value.generation, FullOps(closure.table.value));
        }
      } else if delta {
        transition := Delta(
          closure.table.value.generation, header.value, token, SparseOps(closure.table.value, closure.table.value.manifest.value));
      } else {
        transition := Full(closure.table.value.generation, FullOps(closure.table.value));
      }
    }

    /** Lifecycle analyze. The new state and the response are those of the session state
    machine, failing only when a fault stopped the work. A stale request, and one that reuses the table, change
    nothing; a failed one leaves token, published header and every demand group as they were, in their order,
    and drops every derived cache. */
    method Analyze(
      clean: string -> string, o: Oracle, generation: nat, reset: bool, stateToken: nat,
      changes: seq<EntityDemand>, removed: seq<Path>, faults: Faults)
      returns (response: Response)
      requires Valid() && Idempotent(clean) && Lawful(o)
      modifies this, demands, closure, closure.store
      ensures Valid()
      ensures (State(), response) ==
        Engine.Analyze(old(State()), o, RequestOf(clean, generation, reset, stateToken, changes, removed), response.Failed?)
      ensures faults == Faults(NoFault, false, NoFault, false) ==> !response.Failed?
      ensures response.Rejected? <==> generation != old(closure.generation) || (!reset && stateToken != old(token))
      ensures response.Rejected? || response.Reuse? ==> State() == old(State()) && demands.groups == old(demands.groups)
      ensures response.Failed? ==> token == old(token) && header == old(header) && demands.groups == old(demands.groups)
      ensures response.Failed? ==> closure.State() == ResetClosure(old(closure.State()))
    {
      hide AnalyzedClosure, AnalyzedTransition, NextGroups, Named, RequestOf, AsMap, Find, Order.Less, Released;
      ghost var s := State();
      ghost var r := RequestOf(clean, generation, reset, stateToken, changes, removed);
      RequestFields(clean, generation, reset, stateToken, changes, removed);
      if generation != closure.generation || (!reset && stateToken != token) {
        return Rejected;
      }
      NamedNothing(clean, r, changes, removed);
      if !reset && changes == [] && removed == [] && header == Some(generation) {
        return Reuse(token);
      }
      assert !Reuses(s, r);
      var transaction, named := Begin(clean, changes, removed, reset, r);
      var ok, transition := Tabulate(o, named, reset, faults, s, r);
      if !ok || faults.late {
        Abandon(transaction);
        return Failed;
      }
      transaction.Commit();
      closure.ReleaseTransportRows();
      token := token + 1;
      header := Some(generation);
      response := Published(token, transition);
    }
  }

  lemma RequestFields(clean: string -> string, generation: nat, reset: bool, token: nat, changes: seq<EntityDemand>, removed: seq<Path>)
    ensures var r := RequestOf(clean, generation, reset, token, changes, removed);
      r.generation == generation && r.reset == reset && r.token == token
  {
  }

  lemma CleanKey(clean: string -> string, changes: seq<EntityDemand>, plainRuns: seq<DemandGroup>, index: nat)
    requires Idempotent(clean) && Grouped(clean, changes, plainRuns) && index < |plainRuns|
    ensures clean(plainRuns[index].key) == plainRuns[index].key
  {
    FindAt(plainRuns, index);
    var path := plainRuns[index].key;
    RunAtPresent(clean, changes, path);
  }

  lemma {:induction false} FindMapped(
    clean: string -> string, plainRuns: seq<DemandGroup>, changedRuns: seq<DemandGroup>, path: Path)
    requires |plainRuns| == |changedRuns|
    requires forall i :: 0 <= i < |plainRuns| ==> changedRuns[i] == Row(plainRuns[i].key, Canonical(clean, plainRuns[i].value))
    ensures Find(changedRuns, path) ==
      if Find(plainRuns, path).Some? then Some(Canonical(clean, Find(plainRuns, path).value)) else None
  {
    if plainRuns != [] { FindMapped(clean, plainRuns[1..], changedRuns[1..], path); }
  }

  lemma NamedNothing(clean: string -> string, r: Request, changes: seq<EntityDemand>, removed: seq<Path>)
    requires r == RequestOf(clean, r.generation, r.reset, r.token, changes, removed)
    ensures Named(r) == {} <==> changes == [] && removed == []
  {
    if changes != [] { assert clean(changes[0].location.path) in Named(r); }
    if removed != [] {
      assert clean(removed[0]) == Cleaned(clean, removed)[0];
      assert clean(removed[0]) in Named(r);
    }
  }

  /** Membership in a request's parts. */
  lemma RequestAt(clean: string -> string, r: Request, changes: seq<EntityDemand>, removed: seq<Path>, path: Path)
    requires r == RequestOf(clean, r.generation, r.reset, r.token, changes, removed)
    ensures path in r.changed <==> RequestRun(clean, changes, path).Some?
    ensures path in r.changed ==> RequestRun(clean, changes, path) == Some(r.changed[path])
    ensures path in r.removed <==> path in Cleaned(clean, removed)
    ensures path in Named(r) <==> path in r.changed || path in r.removed
  {
    hide Canonical, RunAt;
  }

  lemma NextGroupsAt(s: Session, r: Request, path: Path)
    ensures path in NextGroups(s, r) <==> path !in r.removed && (path in r.changed || (!r.reset && path in s.groups))
    ensures path in NextGroups(s, r) ==> NextGroups(s, r)[path] == if path in r.changed then r.changed[path] else s.groups[path]
  {
  }

  /** What the transaction did is what the request names. */
  lemma BeginMeaning(
    clean: string -> string, changes: seq<EntityDemand>, removed: seq<Path>, r: Request,
    changedRuns: seq<DemandGroup>, before: seq<DemandGroup>, after: seq<DemandGroup>, named: set<Path>, s: Session)
    requires r == RequestOf(clean, r.generation, r.reset, r.token, changes, removed)
    requires s.groups == AsMap(before)
    requires forall path :: Find(changedRuns, path) == RequestRun(clean, changes, path)
    requires forall path :: Find(after, path) == Overridden(
      if r.reset then None else Find(before, path), Find(changedRuns, path), path in Cleaned(clean, removed))
    requires forall path :: path in named <==> (Find(changedRuns, path).Some? || path in Cleaned(clean, removed))
    ensures named == Named(r) && AsMap(after) == NextGroups(s, r)
  {
    hide RequestOf, NextGroups, Named, AsMap, RequestRun, Cleaned, Find;
    forall path
      ensures path in named <==> path in Named(r)
      ensures path in AsMap(after) <==> path in NextGroups(s, r)
      ensures path in AsMap(after) ==> AsMap(after)[path] == NextGroups(s, r)[path]
    {
      RequestAt(clean, r, changes, removed, path);
      NextGroupsAt(s, r, path);
      assert Find(after, path).Some? <==> path in AsMap(after);
      assert Find(before, path).Some? <==> path in AsMap(before);
    }
  }
}
