/** The client's half of an analyze: the demand delta it sends, the fallback when the
producer lost the state, and what the caller gets back (crates/typefacts/src/session.rs). */
module ClientSessions {
  import opened SortedRows
  import opened Order
  import opened Facts
  import opened Oracles
  import opened Engine
  import opened SessionRuns
  import opened DemandStores

  /** Groups whose run differs from the retained one. */
  function DeltaChanged(retained: Groups, groups: Groups): Groups {
    map path | path in groups && (path !in retained || retained[path] != groups[path]) :: groups[path]
  }

  function DeltaRemoved(retained: Groups, groups: Groups): set<Path> {
    retained.Keys - groups.Keys
  }

  /** The first request of an analyze: a delta against the retained runs, or everything. */
  function FirstRequest(client: Client, retained: Groups, groups: Groups, generation: nat): Request {
    if client.token == 0 then Request(generation, true, 0, groups, {})
    else Request(generation, false, client.token, DeltaChanged(retained, groups), DeltaRemoved(retained, groups))
  }

  datatype ClientSystem = ClientSystem(sys: System, retained: Groups)

  /** What happens to each of the two requests an analyze may send. */
  datatype Fate = Fate(fails: bool, delivered: bool)

  ghost function ResponseTo(sys: System, r: Request, fate: Fate): Response {
    Analyze(sys.session, sys.program, r, fate.fails).1
  }

  ghost function After(sys: System, r: Request, fate: Fate): System {
    Step(sys, Query(r, fate.fails, fate.delivered))
  }

  predicate Succeeds(response: Response, fate: Fate) {
    fate.delivered && (response.Reuse? || response.Published?)
  }

  /** `analyze_groups`: a rejected request makes the client forget its state and send the
  complete demand set; the retained runs follow what the producer accepted. */
  ghost function AnalyzeGroups(c: ClientSystem, groups: Groups, first: Fate, second: Fate): (ClientSystem, bool) {
    var generation := c.sys.session.closure.generation;
    var request := FirstRequest(c.sys.client, c.retained, groups, generation);
    var response := ResponseTo(c.sys, request, first);
    var sys := After(c.sys, request, first);
    if response.Rejected? && first.delivered then
      var forgotten := Step(sys, Forget);
      var complete := Request(generation, true, 0, groups, {});
      var again := After(forgotten, complete, second);
      if Succeeds(ResponseTo(forgotten, complete, second), second) then (ClientSystem(again, groups), true)
      else (ClientSystem(again, map[]), false)
    else if Succeeds(response, first) then (ClientSystem(sys, groups), true)
    else (ClientSystem(sys, c.retained), false)
  }

  /** Whenever the client holds the last published table, its retained runs are the producer's. */
  ghost predicate RetainedInv(c: ClientSystem) {
    Inv(c.sys) && (InSync(c.sys) ==> c.retained == c.sys.session.groups)
  }

  /** The delta moves the retained runs exactly to the caller's groups. */
  lemma DeltaReaches(retained: Groups, groups: Groups)
    ensures (retained + DeltaChanged(retained, groups)) - DeltaRemoved(retained, groups) == groups
  {
  }

  lemma FirstRequestReaches(c: ClientSystem, groups: Groups)
    requires RetainedInv(c)
    ensures var request := FirstRequest(c.sys.client, c.retained, groups, c.sys.session.closure.generation);
      !ResponseTo(c.sys, request, Fate(false, true)).Rejected? ==> NextGroups(c.sys.session, request) == groups
  {
    var request := FirstRequest(c.sys.client, c.retained, groups, c.sys.session.closure.generation);
    if !request.reset && request.token == c.sys.session.token {
      assert InSync(c.sys);
      DeltaReaches(c.retained, groups);
    }
  }

  /** No request of this analyze is the reset that names nothing while a table is current. */
  ghost predicate NamesEnough(c: ClientSystem, groups: Groups) {
    groups != map[] || c.sys.session.closure.table.None? || (c.sys.client.token != 0 && c.sys.client.token == c.sys.session.token)
  }

  /** One request that succeeds leaves the client with the full rows of the new groups. */
  lemma RequestMirrors(sys: System, r: Request, fate: Fate)
    requires Inv(sys) && Admissible(sys, Query(r, fate.fails, fate.delivered))
    ensures Inv(After(sys, r, fate))
    ensures Succeeds(ResponseTo(sys, r, fate), fate) ==>
      && After(sys, r, fate).client.rows.Some?
      && Mirrors(After(sys, r, fate).client.rows.value, sys.program, NextGroups(sys.session, r))
      && After(sys, r, fate).session.groups == NextGroups(sys.session, r)
    ensures InSync(After(sys, r, fate)) && !Succeeds(ResponseTo(sys, r, fate), fate) ==>
      InSync(sys) && After(sys, r, fate).session.groups == sys.session.groups
  {
    QueryKeepsInv(sys, r, fate.fails, fate.delivered);
    if Succeeds(ResponseTo(sys, r, fate), fate) {
      if Completes(sys.session, r, fate.fails) {
        CompletedAnalyze(sys, r);
      } else {
        ReusedAnalyze(sys, r);
        assert NextGroups(sys.session, r) == sys.session.groups;
      }
    }
  }

  lemma RejectedChangesNothing(sys: System, r: Request, fate: Fate)
    requires ResponseTo(sys, r, fate).Rejected?
    ensures After(sys, r, fate) == sys
  {
  }

  lemma ForgetKeepsInv(sys: System)
    requires Inv(sys)
    ensures Inv(Step(sys, Forget)) && !InSync(Step(sys, Forget))
    ensures Step(sys, Forget).session == sys.session && Step(sys, Forget).program == sys.program
  {
  }

  lemma RequestNames(sys: System, c: ClientSystem, groups: Groups, r: Request)
    requires NamesEnough(c, groups) && sys.session == c.sys.session
    requires r.reset ==> r == Request(r.generation, true, 0, groups, {})
    requires !r.reset ==> r.token == sys.client.token
    requires r.reset ==> c.sys.client.token == 0 || c.sys.client.token != c.sys.session.token
    ensures Admissible(sys, Query(r, true, true)) && Admissible(sys, Query(r, false, false))
      && Admissible(sys, Query(r, true, false)) && Admissible(sys, Query(r, false, true))
  {
    if groups != map[] && r.reset {
      var path :| path in groups;
      assert path in Named(r);
    }
  }

  /** An analyze that succeeds gives the caller exactly the rows of a full rematerialisation
  of the groups it asked for, and every analyze keeps the retained runs in step. */
  lemma AnalyzeGroupsMirrors(c: ClientSystem, groups: Groups, first: Fate, second: Fate)
    requires RetainedInv(c) && NamesEnough(c, groups)
    ensures var (after, ok) := AnalyzeGroups(c, groups, first, second);
      && RetainedInv(after)
      && (ok ==> after.sys.client.rows.Some? && Mirrors(after.sys.client.rows.value, c.sys.program, groups))
  {
    hide Inv, Mirrors, Analyze, Receive, FullRows, NextGroups, After, ResponseTo, Step, Admissible, InSync, DeltaChanged, DeltaRemoved;
    var generation := c.sys.session.closure.generation;
    var request := FirstRequest(c.sys.client, c.retained, groups, generation);
    RequestNames(c.sys, c, groups, request);
    RequestMirrors(c.sys, request, first);
    FirstRequestReaches(c, groups);
    var response := ResponseTo(c.sys, request, first);
    var sys := After(c.sys, request, first);
    AcceptanceIgnoresFate(c.sys, request, first);
    if response.Rejected? && first.delivered {
      RejectedChangesNothing(c.sys, request, first);
      ForgetKeepsInv(sys);
      RejectedIsStale(c, groups, first);
      var forgotten := Step(sys, Forget);
      var complete := Request(generation, true, 0, groups, {});
      CompleteReaches(forgotten.session, complete);
      RequestNames(forgotten, c, groups, complete);
      RequestMirrors(forgotten, complete, second);
    }
  }

  lemma AcceptanceIgnoresFate(sys: System, r: Request, fate: Fate)
    ensures ResponseTo(sys, r, fate).Rejected? <==> ResponseTo(sys, r, Fate(false, true)).Rejected?
  {
  }

  lemma CompleteReaches(s: Session, r: Request)
    requires r.reset && r.removed == {}
    ensures NextGroups(s, r) == r.changed
  {
  }

  lemma RejectedIsStale(c: ClientSystem, groups: Groups, fate: Fate)
    requires ResponseTo(c.sys, FirstRequest(c.sys.client, c.retained, groups, c.sys.session.closure.generation), fate).Rejected?
    ensures c.sys.client.token != c.sys.session.token
  {
  }

  /** The request's delta as the client computes it, group by group. */
  method BuildDelta(retained: Groups, groups: seq<DemandGroup>)
    returns (duplicate: bool, changed: seq<DemandGroup>, removed: seq<Path>)
    ensures duplicate <==> exists i, j :: 0 <= i < j < |groups| && groups[i].key == groups[j].key
    ensures !duplicate ==> Sorted(changed)
    ensures !duplicate ==> forall path, run ::
      Find(changed, path) == Some(run) <==> (Row(path, run) in groups && (path !in retained || retained[path] != run))
    ensures !duplicate ==> StrictlyOrdered(removed)
    ensures !duplicate ==> forall path :: path in removed <==> path in retained && forall i :: 0 <= i < |groups| ==> groups[i].key != path
  {
    var present: set<Path> := {};
    duplicate, changed, removed := false, [], [];
    for index := 0 to |groups|
      invariant forall path :: path in present <==> exists i :: 0 <= i < index && groups[i].key == path
      invariant forall i, j :: 0 <= i < j < index ==> groups[i].key != groups[j].key
    {
      if groups[index].key in present {
        duplicate := true;
        return;
      }
      present := present + {groups[index].key};
    }
    FindEmpty<Run>();
    hide Find, Put, Less, LowerIndex;
    for index := 0 to |groups|
      invariant Sorted(changed)
      invariant forall path, run :: Find(changed, path) == Some(run) <==>
        (Row(path, run) in groups[..index] && (path !in retained || retained[path] != run))
    {
      var group := groups[index];
      assert groups[..index + 1] == groups[..index] + [group];
      FreshKey(groups, index);
      if group.key !in retained || retained[group.key] != group.value {
        ChangeMeaning(changed, group.key, Some(group.value));
        changed := Put(changed, group.key, group.value);
      }
    }
    assert groups[..|groups|] == groups;
    var dropped := retained.Keys - present;
    removed := SortedKeys(dropped);
  }

  lemma FreshKey(groups: seq<DemandGroup>, index: nat)
    requires forall i, j :: 0 <= i < j < |groups| ==> groups[i].key != groups[j].key
    requires index < |groups|
    ensures forall run :: Row(groups[index].key, run) !in groups[..index]
  {
  }
}
