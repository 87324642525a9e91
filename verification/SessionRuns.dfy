/** Every run of updates and analyzes keeps the client's table equal to a full
rematerialisation, whatever fails, is cancelled, goes stale or is reset in between. */
module SessionRuns {
  import opened SortedRows
  import opened Order
  import opened Facts
  import opened PathTable
  import opened Contributions
  import opened Oracles
  import opened Engine
  import opened Freshness

  datatype System = System(session: Session, client: Client, program: Oracle)

  /** `delivered` is false when the response never reaches the client or is refused by it.
  `Forget` is the client dropping its retained state, so that its next request resets. */
  datatype Event =
    | Edit(next: Oracle, invalid: set<Path>)
    | Query(request: Request, fails: bool, delivered: bool)
    | Forget

  ghost function Initial(program: Oracle): System {
    System(Session(Closure(1, None, None, None, map[], None, None), map[], 0, None), Client(0, 0, None), program)
  }

  /** A request the client can send: its own token unless it resets. */
  ghost predicate Admissible(sys: System, event: Event) {
    match event
    case Edit(next, invalid) => Lawful(next) && Moves(sys.program, next, invalid)
    case Query(request, _, _) =>
      && (!request.reset ==> request.token == sys.client.token)
      && (request.reset ==> Named(request) != {} || sys.session.closure.table.None?)
    case Forget => true
  }

  ghost function Step(sys: System, event: Event): System {
    match event
    case Edit(next, invalid) =>
      sys.(session := sys.session.(closure := Updated(sys.session.closure, invalid)), program := next)
    case Query(request, fails, delivered) =>
      var (session, response) := Analyze(sys.session, sys.program, request, fails);
      sys.(session := session, client := if delivered then Receive(sys.client, response) else sys.client)
    case Forget => sys.(client := Client(0, 0, None))
  }

  ghost function Run(sys: System, events: seq<Event>): System
    decreases |events|
  {
    if events == [] then sys else Run(Step(sys, events[0]), events[1..])
  }

  ghost predicate AdmissibleRun(sys: System, events: seq<Event>)
    decreases |events|
  {
    events == [] || (Admissible(sys, events[0]) && AdmissibleRun(Step(sys, events[0]), events[1..]))
  }

  // --- the invariant ---

  /** Outside the changed paths, the client's rows are the full ones up to entity rows of
  groups that the next materialisation recomputes or refreshes. */
  ghost predicate Tracks(rows: map<Path, PathRows>, c: Closure, o: Oracle, groups: Groups) {
    forall path :: path !in Changed(c) ==>
      && ClientAt(rows, path).source == FullRows(o, groups, path).source
      && ClientAt(rows, path).file == FullRows(o, groups, path).file
      && (path !in groups ==> ClientAt(rows, path).entities == [])
      && (path in groups && path in c.retained && c.lastSuppression.Some? ==>
            ClientAt(rows, path).entities == Answered(o, path, groups[path], c.lastSuppression.value).entities)
  }

  /** The recorded union has exactly the durable structural symbols of the groups. */
  ghost predicate UnionCurrent(c: Closure, o: Oracle, groups: Groups) {
    && c.lastSuppression.Some?
    && forall symbol :: DurableSymbolID(symbol) ==> (symbol in c.lastSuppression.value <==> symbol in AllStructural(o, groups))
  }

  ghost predicate ClosureInv(s: Session, o: Oracle) {
    var c := s.closure;
    && Retention(c, o, s.groups)
    && (c.table.Some? ==>
          && c.previous.None? && c.changedPaths.None? && s.header == Some(c.generation)
          && AsyncCurrent(c, o, s.groups)
          && c.table.value == Table(c.generation, map[], map[], map[], c.table.value.manifest)
          && UnionCurrent(c, o, s.groups))
    && (c.previous.Some? ==>
          && c.changedPaths.Some? && s.header.Some? && s.header.value < c.generation
          && AsyncCurrent(c, o, s.groups))
    && (s.header.None? ==> c.retained == map[] && c.asyncFiles.None? && s.token == 0)
    && (s.header.Some? ==> s.token > 0 && s.header.value <= c.generation)
    && (forall path :: path in c.retained ==> path !in Changed(c))
  }

  /** The client holds the last published table. */
  ghost predicate InSync(sys: System) {
    sys.client.token == sys.session.token && sys.session.header.Some?
  }

  ghost predicate ClientInv(sys: System) {
    var s, client := sys.session, sys.client;
    && client.token <= s.token
    && (InSync(sys) ==>
          && client.rows.Some? && client.generation == s.header.value
          && (s.header.value == s.closure.generation ==> Mirrors(client.rows.value, sys.program, s.groups))
          && (s.closure.previous.Some? ==> Tracks(client.rows.value, s.closure, sys.program, s.groups)))
  }

  ghost predicate Inv(sys: System) {
    Lawful(sys.program) && ClosureInv(sys.session, sys.program) && ClientInv(sys)
  }

  lemma InitialInv(program: Oracle)
    requires Lawful(program)
    ensures Inv(Initial(program))
  {
  }

  /** Under a current union, a retained contribution's rows are the full ones. */
  lemma RetainedRowsFull(c: Closure, o: Oracle, groups: Groups, path: Path)
    requires Lawful(o) && Retention(c, o, groups) && UnionCurrent(c, o, groups)
    requires path in c.retained && path in groups
    ensures Answered(o, path, groups[path], c.lastSuppression.value).entities == FullRows(o, groups, path).entities
  {
    DurableAgreement(o, path, groups[path], c.lastSuppression.value, c.lastSuppression.value, AllStructural(o, groups));
  }

  // --- updates ---

  /** What an update leaves in place is still what the new program answers. */
  lemma EditKeepsRetention(s: Session, before: Oracle, after: Oracle, invalid: set<Path>)
    requires Lawful(before) && Lawful(after) && Moves(before, after, invalid)
    requires ClosureInv(s, before)
    ensures Retention(Updated(s.closure, invalid), after, s.groups)
  {
    var c, next := s.closure, Updated(s.closure, invalid);
    forall path | path in next.retained && path in s.groups
      ensures next.retained[path] == WithoutRows(Answered(after, path, s.groups[path], next.lastSuppression.value))
    {
      var answer := Answered(before, path, s.groups[path], c.lastSuppression.value);
      assert c.retained[path] == WithoutRows(answer);
      assert !Touches(answer.dependencies, invalid);
      assert answer.durable;
    }
  }

  lemma EditKeepsAsync(s: Session, before: Oracle, after: Oracle, invalid: set<Path>)
    requires Moves(before, after, invalid) && ClosureInv(s, before) && s.closure.table.Some?
    ensures AsyncCurrent(Updated(s.closure, invalid), after, s.groups)
  {
  }

  lemma EditTracks(sys: System, after: Oracle, invalid: set<Path>)
    requires Inv(sys) && Lawful(after) && Moves(sys.program, after, invalid)
    requires InSync(sys) && sys.session.closure.table.Some?
    ensures Tracks(sys.client.rows.value, Updated(sys.session.closure, invalid), after, sys.session.groups)
  {
    var s, before, rows := sys.session, sys.program, sys.client.rows.value;
    var c, next := s.closure, Updated(s.closure, invalid);
    forall path | path !in Changed(next)
      ensures ClientAt(rows, path).source == FullRows(after, s.groups, path).source
      ensures ClientAt(rows, path).file == FullRows(after, s.groups, path).file
      ensures path !in s.groups ==> ClientAt(rows, path).entities == []
      ensures path in s.groups && path in next.retained ==>
        ClientAt(rows, path).entities == Answered(after, path, s.groups[path], next.lastSuppression.value).entities
    {
      assert ClientAt(rows, path) == FullRows(before, s.groups, path);
      if path in s.groups && path in next.retained {
        RetainedRowsFull(c, before, s.groups, path);
        var answer := Answered(before, path, s.groups[path], c.lastSuppression.value);
        assert c.retained[path] == WithoutRows(answer);
        assert !Touches(answer.dependencies, invalid);
        assert answer.durable;
      }
    }
  }

  lemma EditKeepsInv(sys: System, after: Oracle, invalid: set<Path>)
    requires Inv(sys) && Admissible(sys, Edit(after, invalid))
    ensures Inv(Step(sys, Edit(after, invalid)))
  {
    EditKeepsRetention(sys.session, sys.program, after, invalid);
    if sys.session.closure.table.Some? {
      EditKeepsAsync(sys.session, sys.program, after, invalid);
      if InSync(sys) { EditTracks(sys, after, invalid); }
    }
  }

  // --- analyzes ---

  /** What a materialisation needs from the closure an analyze starts from. */
  ghost predicate Ready(c: Closure, o: Oracle, groups: Groups) {
    && Retention(c, o, groups)
    && (forall path :: path in c.retained && path in groups ==> path !in Changed(c))
    && (forall path :: AsyncAt(o, c, groups, path) == AsyncFacts(o, groups, path))
  }

  /** A reset closure is always ready and keeps nothing. */
  lemma ResetReady(c: Closure, o: Oracle, groups: Groups, named: set<Path>)
    ensures Ready(BeginDemands(ResetClosure(c), named), o, groups)
    ensures Kept(BeginDemands(ResetClosure(c), named), groups) == {}
  {
  }

  /** The demand transaction leaves a closure that retains only unnamed runs. */
  lemma BeginKeepsRetention(s: Session, o: Oracle, r: Request)
    requires Retention(s.closure, o, s.groups)
    ensures Retention(BeginDemands(s.closure, Named(r)), o, NextGroups(s, r))
  {
    var c, next := s.closure, BeginDemands(s.closure, Named(r));
    forall path | path in next.retained && path in NextGroups(s, r)
      ensures path in s.groups && NextGroups(s, r)[path] == s.groups[path] && path in c.retained && next.retained[path] == c.retained[path]
    {
    }
  }

  /** When the cached async facts are usable, or no unnamed group can meet them, the
  materialisation is ready. */
  lemma BeginReady(s: Session, o: Oracle, r: Request)
    requires ClosureInv(s, o)
    requires s.closure.table.Some? || s.closure.previous.Some? || s.header.None? || r.reset
    requires BeginDemands(s.closure, Named(r)).table.None?
    ensures Ready(BeginDemands(s.closure, Named(r)), o, NextGroups(s, r))
  {
    var c, groups := BeginDemands(s.closure, Named(r)), NextGroups(s, r);
    BeginKeepsRetention(s, o, r);
    forall path ensures AsyncAt(o, c, groups, path) == AsyncFacts(o, groups, path) {
      if r.reset || path in Named(r) {
        assert path in groups ==> path in Named(r);
      } else if path in groups {
        assert groups[path] == s.groups[path];
        assert AsyncFacts(o, groups, path) == AsyncFacts(o, s.groups, path);
      }
    }
  }

  /** A materialisation without kept groups gives a full table. */
  lemma FullTableFresh(o: Oracle, c: Closure, groups: Groups)
    requires Lawful(o) && Ready(c, o, groups) && Kept(c, groups) == {}
    ensures forall path :: RowsAt(NextTable(o, c, groups), path) == FullRows(o, groups, path)
  {
    forall path ensures RowsAt(NextTable(o, c, groups), path) == FullRows(o, groups, path) {
      TableRowsFresh(o, c, groups, path);
    }
  }

  lemma FullOpsLand(table: Table, path: Path)
    ensures ClientAt(ApplyOps(map[], FullOps(table)), path) == RowsAt(table, path)
  {
    if path in FullOps(table) {
      DifferenceLands(NoRows, RowsAt(table, path), true, true, true);
      assert ClientAt(map[], path) == NoRows;
    } else {
      assert RowsAt(table, path) == NoRows;
    }
  }

  lemma FullOpsMirror(table: Table, o: Oracle, groups: Groups)
    requires forall path :: RowsAt(table, path) == FullRows(o, groups, path)
    ensures Mirrors(ApplyOps(map[], FullOps(table)), o, groups)
  {
    hide RowsAt, FullRows, FullOps, ApplyOps, ClientAt;
    forall path ensures ClientAt(ApplyOps(map[], FullOps(table)), path) == FullRows(o, groups, path) {
      FullOpsLand(table, path);
    }
  }

  lemma SparseOpsMirror(rows: map<Path, PathRows>, table: Table, paths: set<Path>, o: Oracle, groups: Groups)
    requires forall path :: path in paths ==> RowsAt(table, path) == FullRows(o, groups, path)
    requires forall path :: path !in paths ==> ClientAt(rows, path) == FullRows(o, groups, path)
    ensures Mirrors(ApplyOps(rows, SparseOps(table, paths)), o, groups)
  {
    var next := ApplyOps(rows, SparseOps(table, paths));
    forall path ensures ClientAt(next, path) == FullRows(o, groups, path) {
      if path in paths {
        SparseOpLands(ClientAt(rows, path), RowsAt(table, path));
        var entry := ApplyEntry(ClientAt(rows, path), SparseOp(RowsAt(table, path)));
        if entry.None? {
          assert path !in next;
          assert RowsAt(table, path) == NoRows;
        }
      }
    }
  }

  /** Every changed path is named, and every unnamed group was kept unrefreshed. */
  lemma ManifestCovers(o: Oracle, c: Closure, groups: Groups)
    requires c.previous.Some? && c.changedPaths.Some?
    ensures NextManifest(o, c, groups).Some?
    ensures NextManifest(o, c, groups).value == Changed(c) + Recomputed(c, groups) + Refreshed(o, c, groups)
  {
    if Recomputed(c, groups) + Refreshed(o, c, groups) == {} {
      assert Recomputed(c, groups) == {} && Refreshed(o, c, groups) == {};
    }
  }

  /** The exact delta lands: named rows come from this materialisation, unnamed ones were
  already right. */
  lemma DeltaMirrors(rows: map<Path, PathRows>, c: Closure, o: Oracle, groups: Groups)
    requires Lawful(o) && Ready(c, o, groups) && c.previous.Some? && c.changedPaths.Some?
    requires Tracks(rows, c, o, groups)
    ensures Mirrors(ApplyOps(rows, SparseOps(NextTable(o, c, groups), NextManifest(o, c, groups).value)), o, groups)
  {
    ManifestCovers(o, c, groups);
    var table, paths := NextTable(o, c, groups), NextManifest(o, c, groups).value;
    forall path ensures path in paths ==> RowsAt(table, path) == FullRows(o, groups, path) {
      if path in paths { TableRowsFresh(o, c, groups, path); }
    }
    forall path | path !in paths ensures ClientAt(rows, path) == FullRows(o, groups, path) {
      if path in groups { SuppressionFresh(o, c, groups, path); }
    }
    SparseOpsMirror(rows, table, paths, o, groups);
  }

  /** The demand transaction turns a mirrored table into a tracked predecessor. */
  lemma BeginTracks(sys: System, r: Request)
    requires Inv(sys) && InSync(sys) && !r.reset
    requires sys.session.closure.table.Some? || sys.session.closure.previous.Some?
    requires BeginDemands(sys.session.closure, Named(r)).table.None?
    ensures var c := BeginDemands(sys.session.closure, Named(r));
      c.previous.Some? && c.changedPaths.Some? && Tracks(sys.client.rows.value, c, sys.program, NextGroups(sys.session, r))
  {
    var s, o, rows := sys.session, sys.program, sys.client.rows.value;
    var c, groups := BeginDemands(s.closure, Named(r)), NextGroups(s, r);
    forall path | path !in Changed(c)
      ensures ClientAt(rows, path).source == FullRows(o, groups, path).source
      ensures ClientAt(rows, path).file == FullRows(o, groups, path).file
      ensures path !in groups ==> ClientAt(rows, path).entities == []
      ensures path in groups && path in c.retained ==>
        ClientAt(rows, path).entities == Answered(o, path, groups[path], c.lastSuppression.value).entities
    {
      assert path !in Named(r) ==> (path in groups <==> path in s.groups) && (path in groups ==> groups[path] == s.groups[path]);
      if s.closure.table.Some? {
        assert ClientAt(rows, path) == FullRows(o, s.groups, path);
        if path in groups && path in c.retained { RetainedRowsFull(s.closure, o, s.groups, path); }
      }
    }
  }

  /** The closure a completed analyze leaves behind satisfies the closure invariant. */
  lemma CommittedInv(o: Oracle, c: Closure, groups: Groups, token: nat)
    requires Lawful(o) && Ready(c, o, groups) && token > 0
    ensures ClosureInv(Session(Released(Materialized(o, c, groups)), groups, token, Some(c.generation)), o)
  {
    CommitKeepsRetention(o, c, groups);
    CommitKeepsAsync(o, c, groups);
    UnionMeaning(o, c, groups);
  }

  /** The request gets past the identity checks, is not answered by reuse and completes. */
  predicate Completes(s: Session, r: Request, fails: bool) {
    r.generation == s.closure.generation && (r.reset || r.token == s.token) && !Reuses(s, r) && !fails
  }

  lemma ManifestNeedsPrevious(o: Oracle, c: Closure, groups: Groups)
    ensures NextTable(o, c, groups).manifest == NextManifest(o, c, groups)
    ensures NextTable(o, c, groups).generation == c.generation
    ensures NextManifest(o, c, groups).Some? ==> c.previous.Some?
  {
  }

  /** Without a base nothing is kept: a reset names all of its groups, and before the first
  publication nothing is retained. */
  lemma NoBaseKeepsNothing(s: Session, o: Oracle, r: Request)
    requires ClosureInv(s, o) && !HasBase(s, r)
    ensures Kept(BeginDemands(s.closure, Named(r)), NextGroups(s, r)) == {}
  {
    forall path ensures path !in Kept(BeginDemands(s.closure, Named(r)), NextGroups(s, r)) {
      if r.reset { assert path in NextGroups(s, r) ==> path in Named(r); }
    }
  }

  /** A current table answers only what reuse answers, so a completing analyze has none. */
  lemma CompletesWithoutTable(sys: System, r: Request)
    requires Inv(sys) && Admissible(sys, Query(r, false, true)) && Completes(sys.session, r, false)
    ensures BeginDemands(sys.session.closure, Named(r)).table.None?
  {
  }

  /** The new session and what the client receives, spelled out. */
  lemma CompletedStep(sys: System, r: Request)
    requires Inv(sys) && Admissible(sys, Query(r, false, true)) && Completes(sys.session, r, false)
    ensures var s, o := sys.session, sys.program;
      var groups, begun := NextGroups(s, r), BeginDemands(s.closure, Named(r));
      var first := Materialized(o, begun, groups);
      var rebuilt := HasBase(s, r) && NextManifest(o, begun, groups).None?;
      var start := if rebuilt then BeginDemands(ResetClosure(first), Named(r)) else begun;
      var after := Step(sys, Query(r, false, true));
      && start.generation == s.closure.generation
      && after.program == o
      && after.session == Session(Released(Materialized(o, start, groups)), groups, s.token + 1, Some(s.closure.generation))
      && (HasBase(s, r) ==> InSync(sys))
      && after.client == Client(s.token + 1, s.closure.generation, Some(
           if HasBase(s, r) && !rebuilt
           then ApplyOps(sys.client.rows.value, SparseOps(NextTable(o, begun, groups), NextManifest(o, begun, groups).value))
           else ApplyOps(map[], FullOps(NextTable(o, start, groups)))))
  {
    hide FullRows, NextManifest, NextRetained, NextAsyncFiles, Kept, Recomputed, Refreshed, UnionOf, FullOps, SparseOps,
      ApplyOps, Tracks, Mirrors, Retention, AsyncCurrent, UnionCurrent, Lawful, Released, NextTable, NextGroups;
    CompletesWithoutTable(sys, r);
    var groups, begun := NextGroups(sys.session, r), BeginDemands(sys.session.closure, Named(r));
    ManifestNeedsPrevious(sys.program, begun, groups);
    ManifestNeedsPrevious(sys.program, BeginDemands(ResetClosure(Materialized(sys.program, begun, groups)), Named(r)), groups);
  }

  /** A completed analyze publishes, and the client that receives it holds exactly the rows
  of a full rematerialisation of the new groups over the current program. */
  lemma CompletedAnalyze(sys: System, r: Request)
    requires Inv(sys) && Admissible(sys, Query(r, false, true)) && Completes(sys.session, r, false)
    ensures Inv(Step(sys, Query(r, false, true)))
    ensures InSync(Step(sys, Query(r, false, true)))
    ensures Mirrors(Step(sys, Query(r, false, true)).client.rows.value, sys.program, NextGroups(sys.session, r))
  {
    hide FullRows, NextManifest, NextRetained, NextAsyncFiles, Kept, Recomputed, Refreshed, UnionOf, FullOps, SparseOps,
      ApplyOps, Ready, Tracks, Retention, AsyncCurrent, UnionCurrent, Lawful, Released, NextTable, NextGroups, Step, Materialized;
    var s, o := sys.session, sys.program;
    var groups, begun := NextGroups(s, r), BeginDemands(s.closure, Named(r));
    CompletedStep(sys, r);
    CompletesWithoutTable(sys, r);
    ManifestNeedsPrevious(o, begun, groups);
    if HasBase(s, r) && NextManifest(o, begun, groups).None? {
      var first := Materialized(o, begun, groups);
      var reset := BeginDemands(ResetClosure(first), Named(r));
      ResetReady(first, o, groups, Named(r));
      CommittedInv(o, reset, groups, s.token + 1);
      FullTableFresh(o, reset, groups);
      FullOpsMirror(NextTable(o, reset, groups), o, groups);
    } else {
      BeginReady(s, o, r);
      CommittedInv(o, begun, groups, s.token + 1);
      if HasBase(s, r) {
        BeginTracks(sys, r);
        DeltaMirrors(sys.client.rows.value, begun, o, groups);
      } else {
        NoBaseKeepsNothing(s, o, r);
        FullTableFresh(o, begun, groups);
        FullOpsMirror(NextTable(o, begun, groups), o, groups);
      }
    }
    CompletedInv(sys, r);
  }

  /** The published state satisfies the invariant once its closure does and its rows mirror. */
  lemma CompletedInv(sys: System, r: Request)
    requires Inv(sys) && Admissible(sys, Query(r, false, true)) && Completes(sys.session, r, false)
    requires var after := Step(sys, Query(r, false, true));
      && ClosureInv(after.session, sys.program) && after.client.rows.Some?
      && Mirrors(after.client.rows.value, sys.program, NextGroups(sys.session, r))
    ensures Inv(Step(sys, Query(r, false, true))) && InSync(Step(sys, Query(r, false, true)))
  {
    hide FullRows, NextManifest, NextRetained, NextAsyncFiles, Kept, Recomputed, Refreshed, UnionOf, FullOps, SparseOps,
      ApplyOps, Tracks, Mirrors, Retention, AsyncCurrent, UnionCurrent, Lawful, NextTable, NextGroups, Step;
    CompletedStep(sys, r);
  }

  /** Reuse is genuine: nothing is sent because the client already mirrors the groups. */
  lemma ReusedAnalyze(sys: System, r: Request)
    requires Inv(sys) && Admissible(sys, Query(r, false, true))
    requires r.generation == sys.session.closure.generation && r.token == sys.session.token && Reuses(sys.session, r)
    ensures InSync(sys) && Mirrors(sys.client.rows.value, sys.program, NextGroups(sys.session, r))
  {
    assert NextGroups(sys.session, r) == sys.session.groups;
  }

  lemma QueryKeepsInv(sys: System, r: Request, fails: bool, delivered: bool)
    requires Inv(sys) && Admissible(sys, Query(r, fails, delivered))
    ensures Inv(Step(sys, Query(r, fails, delivered)))
  {
    if Completes(sys.session, r, fails) {
      CompletedAnalyze(sys, r);
    }
  }

  /** The invariant holds after every admissible run. */
  lemma {:induction false} RunKeepsInv(sys: System, events: seq<Event>)
    requires Inv(sys) && AdmissibleRun(sys, events)
    ensures Inv(Run(sys, events))
    decreases |events|
  {
    if events != [] {
      match events[0] {
        case Edit(next, invalid) => EditKeepsInv(sys, next, invalid);
        case Query(r, fails, delivered) => QueryKeepsInv(sys, r, fails, delivered);
        case Forget =>
      }
      RunKeepsInv(Step(sys, events[0]), events[1..]);
    }
  }

  /** Over every run: after each analyze that succeeds and reaches the client, the client's
  rows are a full rematerialisation of the current groups over the current program. */
  lemma EveryRunMirrors(program: Oracle, events: seq<Event>, r: Request)
    requires Lawful(program)
    requires AdmissibleRun(Initial(program), events)
    requires Admissible(Run(Initial(program), events), Query(r, false, true))
    ensures var sys := Run(Initial(program), events);
      var (session, response) := Analyze(sys.session, sys.program, r, false);
      var after := Step(sys, Query(r, false, true));
      !response.Rejected? ==>
        && after.client.rows.Some?
        && after.client.token == after.session.token
        && Mirrors(after.client.rows.value, sys.program, after.session.groups)
  {
    InitialInv(program);
    RunKeepsInv(Initial(program), events);
    var sys := Run(Initial(program), events);
    if Completes(sys.session, r, false) {
      CompletedAnalyze(sys, r);
    } else if r.generation == sys.session.closure.generation && (r.reset || r.token == sys.session.token) {
      ReusedAnalyze(sys, r);
    }
  }

  // --- where a reset analyze goes wrong ---

  /** A reset analyze that completes mirrors the groups exactly when it names a path, or no
  table is current, or the program has no sources. In the failing case the current table,
  whose rows were already released, is sent as a full replacement. */
  lemma ResetMirrorsIff(sys: System, r: Request)
    requires Inv(sys) && r.reset && Completes(sys.session, r, false)
    ensures var after := Step(sys, Query(r, false, true));
      after.client.rows.Some? &&
      (Mirrors(after.client.rows.value, sys.program, NextGroups(sys.session, r))
       <==> (Named(r) != {} || sys.session.closure.table.None? || sys.program.sources == map[]))
  {
    var s, o, groups := sys.session, sys.program, NextGroups(sys.session, r);
    var after := Step(sys, Query(r, false, true));
    if Named(r) != {} || s.closure.table.None? {
      CompletedAnalyze(sys, r);
    } else {
      assert FullOps(s.closure.table.value) == map[];
      assert after.client.rows.value == map[];
      assert groups == map[];
      if o.sources == map[] {
        assert Mirrors(map[], o, groups);
      } else {
        var path :| path in o.sources;
        assert FullRows(o, groups, path).source.Some?;
        assert ClientAt(map[], path) == NoRows;
      }
    }
  }

  /** A one-file program that answers the empty run with nothing. */
  ghost function OneFile(): Oracle {
    Oracle(map["/p/a.ts" := []], (path, run: Run, suppression) => RunResult([], [], [], true), (path, run) => [])
  }

  lemma OneFileLawful()
    ensures Lawful(OneFile())
  {
    assert Dedup(SortStrings([])) == [];
  }

  /** Two reset analyzes of one generation, the second naming nothing: the client ends
  without the row of the program's only source. */
  lemma ResetWithoutRunsLosesRows()
    ensures Lawful(OneFile())
    ensures var first := Query(Request(1, true, 0, map["/p/a.ts" := []], {}), false, true);
      var second := Query(Request(1, true, 0, map[], {}), false, true);
      var sys := Step(Step(Initial(OneFile()), first), second);
      && sys.client.rows.Some? && sys.client.token == sys.session.token == 2
      && FullRows(sys.program, sys.session.groups, "/p/a.ts").source == Some([])
      && ClientAt(sys.client.rows.value, "/p/a.ts") == NoRows
  {
    var first := Query(Request(1, true, 0, map["/p/a.ts" := []], {}), false, true);
    var second := Query(Request(1, true, 0, map[], {}), false, true);
    var middle := Step(Initial(OneFile()), first);
    OneFileLawful();
    hide Lawful;
    assert Named(first.request) == {"/p/a.ts"};
    assert Named(second.request) == {};
    assert middle.session.closure.table.Some?;
    assert middle.session.closure.table.value.sources == map[];
    assert FullOps(middle.session.closure.table.value) == map[];
    var last := Step(middle, second);
    assert last.client.rows.value == map[];
  }
}
