/** How a switch keeps track, clause by clause: breaks, fall-through and the merge of the exits
(scanAsyncSwitchFlow, internal/typefacts/tsgo/async_flow.go:445-503). */
module AsyncSwitches {
  import opened SortedRows
  import opened AsyncFlows
  import opened AsyncSemantics
  import opened AsyncReaches
  import opened AsyncStructures

  // --- one clause ---

  function FlowTest(test: Option<Node>, state: State): Scan {
    if test.Some? then Flow(test.value, state) else Scan(state, [])
  }

  function ReachTest(test: Option<Node>): Quiet {
    if test.Some? then Reach(test.value) else QDONE
  }

  /** A clause's statements keep track; a direct break leaves the scan at the start as well. */
  ghost predicate BodyTracks(entry: State, statements: seq<Node>, s: nat) {
    var body, quiet := FlowBody(statements, entry), ReachSeq(statements);
    && Tracks(entry, quiet, Scan(body.state, body.calls), CountSeq(statements, s), s)
    && (entry == START && Normal in quiet.outcomes ==> !body.broke)
    && (entry == START && Broke in quiet.outcomes && TidyBody(statements) ==> body.broke && body.state == START)
  }

  lemma BodyUnfolds(statements: seq<Node>, state: State)
    ensures statements == [] ==> FlowBody(statements, state) == BodyScan(state, false, []) && ReachSeq(statements) == QDONE
    ensures statements != [] ==>
      && ReachSeq(statements) == QSeq(Reach(statements[0]), ReachSeq(statements[1..]))
      && FlowBody(statements, state) == (
        if IsBreak(statements[0]) then BodyScan(state, true, [])
        else
          var first := Flow(statements[0], state);
          if !first.state.reachable then BodyScan(first.state, false, first.calls)
          else
            var rest := FlowBody(statements[1..], first.state);
            BodyScan(rest.state, rest.broke, first.calls + rest.calls))
  {
    hide Flow, Reach, QSeq;
  }

  lemma SeqBroke(p: Quiet, q: Quiet)
    ensures Broke in QSeq(p, q).outcomes <==> Broke in p.outcomes || (Normal in p.outcomes && Broke in q.outcomes)
  {
    if Broke in p.outcomes { assert Broke in QOnNormal(q)(Broke).outcomes; }
    if Normal in p.outcomes && Broke in q.outcomes { assert Broke in QOnNormal(q)(Normal).outcomes; }
  }

  lemma BreakReaches(node: Node)
    requires IsBreak(node)
    ensures Reach(node).sites == {} && Normal !in Reach(node).outcomes
  {
  }

  /** A direct break ends the clause. */
  lemma BodyBreaks(entry: State, statements: seq<Node>, s: nat)
    requires statements != [] && IsBreak(statements[0])
    ensures BodyTracks(entry, statements, s)
  {
    BodyUnfolds(statements, entry);
    BreakReaches(statements[0]);
    SeqParts(Reach(statements[0]), ReachSeq(statements[1..]));
    hide Reach, QSeq, FlowBody, ReachSeq;
  }

  lemma BodyStep(entry: State, statements: seq<Node>, s: nat)
    requires statements != [] && !IsBreak(statements[0])
    requires Tracks(entry, Reach(statements[0]), Flow(statements[0], entry), Count(statements[0], s), s)
    requires BodyTracks(Flow(statements[0], entry).state, statements[1..], s)
    ensures BodyTracks(entry, statements, s)
  {
    var first, quiet, rest := Flow(statements[0], entry), Reach(statements[0]), statements[1..];
    BodyUnfolds(statements, entry);
    SeqParts(quiet, ReachSeq(rest));
    SeqBroke(quiet, ReachSeq(rest));
    TidyRest(statements);
    assert CountSeq(statements, s) == Count(statements[0], s) + CountSeq(rest, s);
    hide Reach, Flow, QSeq, FlowBody, ReachSeq, CountSeq, TidyBody;
    if first.state.reachable {
      var body := FlowBody(rest, first.state);
      TrackSeq(entry, quiet, first, Count(statements[0], s), ReachSeq(rest), Scan(body.state, body.calls), CountSeq(rest, s), s);
    }
  }

  lemma TidyRest(statements: seq<Node>)
    requires statements != []
    ensures TidyBody(statements) ==> TidyBody(statements[1..]) && (IsBreak(statements[0]) || Tidy(statements[0], Broke))
  {
    hide Tidy, IsBreak;
    assert forall k :: 0 <= k < |statements| - 1 ==> statements[1..][k] == statements[k + 1];
  }

  // --- the clauses ---

  ghost predicate ClauseTracks(clause: Clause, s: nat) {
    forall st: State :: ClauseTracksFrom(clause, st, s)
  }

  ghost predicate ClauseTracksFrom(clause: Clause, st: State, s: nat) {
    Tracks(st, ReachTest(clause.test), FlowTest(clause.test, st), CountTest(clause.test, s), s) && BodyTracks(st, clause.statements, s)
  }

  function CountClause(clause: Clause, s: nat): nat {
    CountTest(clause.test, s) + CountSeq(clause.statements, s)
  }

  predicate InCalls(clause: Clause, s: nat) {
    s in FlowTest(clause.test, START).calls || s in FlowBody(clause.statements, START).calls
  }

  predicate InSites(clause: Clause, s: nat) {
    s in ReachTest(clause.test).sites || s in ReachSeq(clause.statements).sites
  }

  lemma ClauseCounts(clause: Clause, s: nat)
    requires ClauseTracks(clause, s) && InSites(clause, s)
    ensures CountClause(clause, s) >= 1
    ensures InCalls(clause, s) ==> CountClause(clause, s) >= 2
  {
    hide FlowTest, ReachTest, FlowBody, ReachSeq, CountTest, CountSeq;
    assert ClauseTracksFrom(clause, START, s);
  }

  lemma {:induction false} CountOne(clauses: seq<Clause>, c: nat, s: nat)
    requires c < |clauses|
    ensures CountClauses(clauses, s) >= CountClause(clauses[c], s)
  {
    hide CountTest, CountSeq;
    if c > 0 { CountOne(clauses[1..], c - 1, s); }
  }

  lemma {:induction false} CountTwo(clauses: seq<Clause>, c: nat, d: nat, s: nat)
    requires c < |clauses| && d < |clauses| && c != d
    ensures CountClauses(clauses, s) >= CountClause(clauses[c], s) + CountClause(clauses[d], s)
  {
    hide CountTest, CountSeq;
    if c == 0 {
      CountOne(clauses[1..], d - 1, s);
    } else if d == 0 {
      CountOne(clauses[1..], c - 1, s);
    } else {
      CountTwo(clauses[1..], c - 1, d - 1, s);
    }
  }

  /** Where a reported call of the clauses stands. */
  lemma {:induction false} ClauseCalls(clauses: seq<Clause>, entry: State, through: Option<State>, s: nat) returns (c: nat)
    requires forall k :: 0 <= k < |clauses| ==> ClauseTracks(clauses[k], s)
    requires s in FlowClauses(clauses, entry, through).calls
    ensures c < |clauses| && CountClause(clauses[c], s) >= 1 && (entry == START ==> InCalls(clauses[c], s))
    decreases clauses
  {
    ClausesUnfold(clauses, entry, through);
    hide Flow, FlowBody, FlowClauses, ReachTest, ReachSeq, CountTest, CountSeq, Tracks;
    var clause := clauses[0];
    var from := ClauseEntry(entry, through);
    var body := FlowBody(clause.statements, from);
    var next := if body.broke || !body.state.reachable then None else Some(body.state);
    assert ClauseTracks(clause, s);
    assert ClauseTracksFrom(clause, entry, s) && ClauseTracksFrom(clause, from, s);
    if s in FlowTest(clause.test, entry).calls {
      CallsCount(entry, ReachTest(clause.test), FlowTest(clause.test, entry), CountTest(clause.test, s), s);
      c := 0;
    } else if s in body.calls {
      CallsCount(from, ReachSeq(clause.statements), Scan(body.state, body.calls), CountSeq(clause.statements, s), s);
      c := 0;
    } else {
      c := ClauseCalls(clauses[1..], entry, next, s);
      c := c + 1;
    }
  }

  lemma CallsCount(entry: State, quiet: Quiet, scan: Scan, count: nat, s: nat)
    requires Tracks(entry, quiet, scan, count, s) && s in scan.calls
    ensures count >= 1
  {
  }

  // --- which calls and ends a switch reaches ---

  lemma {:induction false} TestsSites(clauses: seq<Clause>, m: nat, s: nat) returns (c: nat)
    requires m <= |clauses| && s in ReachTests(clauses, m).sites
    ensures c < m && s in ReachTest(clauses[c].test).sites
    decreases m
  {
    hide Reach, QSeq;
    c := m - 1;
    if clauses[m - 1].test.None? {
      c := TestsSites(clauses, m - 1, s);
    } else {
      SeqParts(ReachTests(clauses, m - 1), Reach(clauses[m - 1].test.value));
      if s !in Reach(clauses[m - 1].test.value).sites { c := TestsSites(clauses, m - 1, s); }
    }
  }

  lemma {:induction false} FromSites(clauses: seq<Clause>, k: nat, s: nat) returns (c: nat)
    requires k <= |clauses| && s in ReachFrom(clauses, k).sites
    ensures c < |clauses| && s in ReachSeq(clauses[c].statements).sites
    decreases |clauses| - k
  {
    hide ReachSeq, QSeq;
    c := k;
    SeqParts(ReachSeq(clauses[k].statements), ReachFrom(clauses, k + 1));
    if s !in ReachSeq(clauses[k].statements).sites { c := FromSites(clauses, k + 1, s); }
  }

  lemma {:induction false} AnySites(clauses: seq<Clause>, n: nat, s: nat) returns (c: nat)
    requires n <= |clauses| && s in ReachAny(clauses, n).sites
    ensures c < |clauses| && InSites(clauses[c], s)
    decreases n
  {
    hide ReachTests, ReachFrom, QSeq, ReachTest, ReachSeq;
    var m := TestsBefore(clauses, n - 1);
    SeqParts(ReachTests(clauses, m), ReachFrom(clauses, n - 1));
    if s in ReachAny(clauses, n - 1).sites {
      c := AnySites(clauses, n - 1, s);
    } else if s in ReachTests(clauses, m).sites {
      c := TestsSites(clauses, m, s);
    } else {
      c := FromSites(clauses, n - 1, s);
    }
  }

  lemma SelectedSites(clauses: seq<Clause>, s: nat) returns (c: nat)
    requires s in ReachSelected(clauses).sites
    ensures c < |clauses| && InSites(clauses[c], s)
  {
    var n := |clauses|;
    var unmatched := Both(QCUT, if HasDefault(clauses) then NEVER else QDONE);
    SeqParts(ReachTests(clauses, n), unmatched);
    hide ReachTests, ReachAny, QSeq, HasDefault, ReachTest, ReachSeq;
    if s in ReachAny(clauses, n).sites {
      c := AnySites(clauses, n, s);
    } else {
      c := TestsSites(clauses, n, s);
    }
  }

  lemma {:induction false} TestsTidy(clauses: seq<Clause>, m: nat)
    requires m <= |clauses| && TidyClauses(clauses)
    ensures Broke !in ReachTests(clauses, m).outcomes
    decreases m
  {
    hide Reach, QSeq, TidyBody;
    if m > 0 {
      TestsTidy(clauses, m - 1);
      if clauses[m - 1].test.Some? { SeqBroke(ReachTests(clauses, m - 1), Reach(clauses[m - 1].test.value)); }
    }
  }

  predicate FallsOut(clauses: seq<Clause>) {
    clauses != [] && Normal in ReachSeq(clauses[|clauses| - 1].statements).outcomes
  }

  ghost predicate Breaks(clauses: seq<Clause>) {
    exists d :: 0 <= d < |clauses| && Broke in ReachSeq(clauses[d].statements).outcomes
  }

  lemma {:induction false} FromEnds(clauses: seq<Clause>, k: nat)
    requires k <= |clauses|
    ensures Normal in ReachFrom(clauses, k).outcomes ==> k == |clauses| || FallsOut(clauses)
    ensures Broke in ReachFrom(clauses, k).outcomes ==> Breaks(clauses)
    decreases |clauses| - k
  {
    hide ReachSeq, QSeq;
    if k < |clauses| {
      FromEnds(clauses, k + 1);
      SeqParts(ReachSeq(clauses[k].statements), ReachFrom(clauses, k + 1));
      SeqBroke(ReachSeq(clauses[k].statements), ReachFrom(clauses, k + 1));
    }
  }

  predicate Exits(quiet: Quiet) {
    Normal in quiet.outcomes || Broke in quiet.outcomes
  }

  lemma ClauseEnds(clauses: seq<Clause>, c: nat)
    requires c < |clauses| && TidyClauses(clauses) && Exits(ReachClause(clauses, c))
    ensures FallsOut(clauses) || Breaks(clauses)
  {
    var m := TestsBefore(clauses, c);
    TestsTidy(clauses, m);
    FromEnds(clauses, c);
    SeqParts(ReachTests(clauses, m), ReachFrom(clauses, c));
    SeqBroke(ReachTests(clauses, m), ReachFrom(clauses, c));
    hide ReachTests, ReachFrom, QSeq, FallsOut, Breaks, TidyClauses, TestsBefore;
  }

  lemma {:induction false} AnyEnds(clauses: seq<Clause>, n: nat)
    requires n <= |clauses| && TidyClauses(clauses) && Exits(ReachAny(clauses, n))
    ensures FallsOut(clauses) || Breaks(clauses)
    decreases n
  {
    hide ReachClause, FallsOut, Breaks, TidyClauses;
    if Exits(ReachAny(clauses, n - 1)) { AnyEnds(clauses, n - 1); } else { ClauseEnds(clauses, n - 1); }
  }

  lemma SelectedEnds(clauses: seq<Clause>)
    requires TidyClauses(clauses) && Exits(ReachSelected(clauses))
    ensures !HasDefault(clauses) || FallsOut(clauses) || Breaks(clauses)
  {
    var n := |clauses|;
    if Exits(ReachAny(clauses, n)) { AnyEnds(clauses, n); }
    TestsTidy(clauses, n);
    hide ReachTests, ReachAny, QSeq, HasDefault, FallsOut, Breaks, TidyClauses;
    var unmatched := Both(QCUT, if HasDefault(clauses) then NEVER else QDONE);
    SeqParts(ReachTests(clauses, n), unmatched);
    SeqBroke(ReachTests(clauses, n), unmatched);
  }

  // --- the merged exits ---

  lemma {:induction false} BreakExits(clauses: seq<Clause>, through: Option<State>, d: nat)
    requires d < |clauses| && FlowBody(clauses[d].statements, START).broke && FlowBody(clauses[d].statements, START).state == START
    ensures START in FlowClauses(clauses, START, through).exits
    decreases clauses
  {
    ClausesUnfold(clauses, START, through);
    hide Flow, FlowBody, FlowClauses;
    var body := FlowBody(clauses[0].statements, START);
    if d > 0 { BreakExits(clauses[1..], if body.broke || !body.state.reachable then None else Some(body.state), d - 1); }
  }

  lemma {:induction false} LastThrough(clauses: seq<Clause>, through: Option<State>)
    requires clauses != [] && var last := FlowBody(clauses[|clauses| - 1].statements, START); !last.broke && last.state == START
    ensures FlowClauses(clauses, START, through).through == Some(START)
    decreases clauses
  {
    ClausesUnfold(clauses, START, through);
    hide Flow, FlowBody, FlowClauses;
    var body := FlowBody(clauses[0].statements, START);
    var next := if body.broke || !body.state.reachable then None else Some(body.state);
    if |clauses| > 1 { LastThrough(clauses[1..], next); } else { ClausesUnfold([], START, next); }
  }

  lemma {:induction false} MergeStart(merged: State, exits: seq<State>)
    requires merged == START || START in exits
    ensures MergeFrom(merged, exits) == START
    decreases |exits|
  {
    if exits != [] { MergeStart(Merge(merged, exits[0]), exits[1..]); }
  }

  /** An exit at the start takes the whole switch back to the start. */
  lemma SwitchMerges(clauses: seq<Clause>, s: nat)
    requires !HasDefault(clauses) || FallsOut(clauses) || Breaks(clauses)
    requires TidyClauses(clauses) && forall c :: 0 <= c < |clauses| ==> BodyTracks(START, clauses[c].statements, s)
    ensures MergeAll(SwitchExits(clauses, FlowClauses(clauses, START, None), START), START) == START
  {
    var scan := FlowClauses(clauses, START, None);
    var exits := SwitchExits(clauses, scan, START);
    if FallsOut(clauses) {
      assert BodyTracks(START, clauses[|clauses| - 1].statements, s);
      LastThrough(clauses, None);
    } else if Breaks(clauses) {
      var d: nat :| d < |clauses| && Broke in ReachSeq(clauses[d].statements).outcomes;
      assert BodyTracks(START, clauses[d].statements, s);
      BreakExits(clauses, None, d);
    }
    hide FlowClauses, HasDefault, FallsOut, Breaks, BodyTracks, TidyClauses, TidyBody;
    assert START in exits;
    MergeStart(exits[0], exits[1..]);
  }

  // --- the whole switch ---

  function SelectedQuiet(clauses: seq<Clause>): Quiet {
    Quiet(if Exits(ReachSelected(clauses)) then {Normal} else {}, ReachSelected(clauses).sites)
  }

  /** What follows the subject, when the breaks are tidy. */
  lemma SelectedTracks(clauses: seq<Clause>, entry: State, state: State, s: nat)
    requires forall c :: 0 <= c < |clauses| ==> ClauseTracks(clauses[c], s)
    requires entry == START && Exits(ReachSelected(clauses)) ==> state == START
    ensures Tracks(entry, SelectedQuiet(clauses), Scan(state, FlowClauses(clauses, entry, None).calls), CountClauses(clauses, s), s)
  {
    var calls := FlowClauses(clauses, entry, None).calls;
    hide FlowClauses, ReachSelected, ClauseTracks, InCalls, InSites, CountClauses, CountClause, Exits;
    if s in ReachSelected(clauses).sites {
      var d := SelectedSites(clauses, s);
      ClauseCounts(clauses[d], s);
      CountOne(clauses, d, s);
      if s in calls {
        var c := ClauseCalls(clauses, entry, None, s);
        if c != d { CountTwo(clauses, c, d, s); }
      }
    } else if s in calls {
      var c := ClauseCalls(clauses, entry, None, s);
      CountOne(clauses, c, s);
    }
  }

  lemma SwitchTracks(node: Node, entry: State, s: nat)
    requires node.Switch? && (Steady(node) || (Tidy(node.subject, Broke) && TidyClauses(node.clauses)))
    requires Tracks(entry, Reach(node.subject), Flow(node.subject, entry), Count(node.subject, s), s)
    requires forall c :: 0 <= c < |node.clauses| ==> ClauseTracks(node.clauses[c], s)
    requires entry == START ==> Flow(node, START) == FlowSwitch(node, START)
    ensures Tracks(entry, ReachNode(node), FlowSwitch(node, entry), Count(node, s), s)
  {
    var subject, clauses := node.subject, node.clauses;
    var first := Flow(subject, entry);
    var after := FlowSwitch(node, entry).state;
    var calls := FlowClauses(clauses, first.state, None).calls;
    SwitchReach(node);
    if first.state == START && TidyClauses(clauses) && Exits(ReachSelected(clauses)) {
      SelectedEnds(clauses);
      StartBodies(clauses, s);
      SwitchMerges(clauses, s);
    }
    var ended := if first.state == START && Exits(ReachSelected(clauses)) then START else after;
    SelectedTracks(clauses, first.state, ended, s);
    hide Flow, Reach, FlowClauses, ReachSelected, QSeq, ClauseTracks, TidyClauses, Exits, MergeAll, ReachNode, SwitchExits;
    TrackSeq(entry, Reach(subject), first, Count(subject, s), SelectedQuiet(clauses), Scan(ended, calls), CountClauses(clauses, s), s);
    SeqParts(Reach(subject), SelectedQuiet(clauses));
    TrackAs(entry, QSeq(Reach(subject), SelectedQuiet(clauses)), Scan(ended, first.calls + calls), Count(node, s), ReachNode(node), FlowSwitch(node, entry), s);
  }

  lemma StartBodies(clauses: seq<Clause>, s: nat)
    requires forall c :: 0 <= c < |clauses| ==> ClauseTracks(clauses[c], s)
    ensures forall c :: 0 <= c < |clauses| ==> BodyTracks(START, clauses[c].statements, s)
  {
    hide BodyTracks, Tracks;
    forall c | 0 <= c < |clauses| ensures BodyTracks(START, clauses[c].statements, s) {
      assert ClauseTracks(clauses[c], s);
      assert ClauseTracksFrom(clauses[c], START, s);
    }
  }

  lemma SwitchReach(node: Node)
    requires node.Switch?
    ensures ReachNode(node).sites == QSeq(Reach(node.subject), ReachSelected(node.clauses)).sites
    ensures ReachNode(node).sites == Reach(node.subject).sites + (if Normal in Reach(node.subject).outcomes then ReachSelected(node.clauses).sites else {})
    ensures Normal in ReachNode(node).outcomes ==>
      Broke in Reach(node.subject).outcomes || (Normal in Reach(node.subject).outcomes && Exits(ReachSelected(node.clauses)))
  {
    var selected := ReachSelected(node.clauses);
    SeqParts(Reach(node.subject), selected);
    SeqBroke(Reach(node.subject), selected);
    CaughtParts(QSeq(Reach(node.subject), selected), Broke, QDONE);
    hide Reach, ReachSelected, QSeq, QBind, QOnCaught;
  }
}
