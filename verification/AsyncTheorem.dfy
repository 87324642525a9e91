/** When the async control-flow analysis is right (internal/typefacts/tsgo/async_flow.go:339-509):
exactly for every body, and always for the structured ones. */
module AsyncTheorems {
  import opened SortedRows
  import opened AsyncFlows
  import opened AsyncSemantics
  import opened AsyncReaches
  import opened AsyncReachExactness
  import opened AsyncStructures
  import opened AsyncTracking

  /** The calls the analysis reports as following an await. */
  function ReportedCalls(body: Node): seq<nat> {
    Flow(body, START).calls
  }

  /** Some run performs a reported call before any await completed. */
  ghost predicate Misreports(body: Node) {
    exists run, site :: run in Exec(body) && site in ReportedCalls(body) && CallsEarly(run, site)
  }

  /** Exact, for every body: a reported call comes too early on some run just when the reach
  analysis finds one of the reported sites before any await. */
  lemma MisreportsIff(body: Node)
    ensures Misreports(body) <==> exists site :: site in ReportedCalls(body) && site in Reach(body).sites
  {
    ReachExact(body);
    hide Exec, Reach, ReportedCalls, CallsEarly, Silent;
    if site :| site in ReportedCalls(body) && site in Reach(body).sites {
      assert Calls(Exec(body), site);
    }
  }

  ghost predicate DistinctSites(body: Node) {
    forall s :: Count(body, s) <= 1
  }

  /** On every run of a structured body, each reported call comes after a completed await. */
  lemma ReportedCallsFollowAwait(body: Node, run: Run, i: nat)
    requires Structured(body) && DistinctSites(body)
    requires run in Exec(body) && i < |run.trace| && run.trace[i].Called? && run.trace[i].site in ReportedCalls(body)
    ensures Awaited in run.trace[..i]
  {
    var s := run.trace[i].site;
    TracksNode(body, START, s);
    ReachExact(body);
    EarlyAt(run, s, i);
    assert Count(body, s) <= 1;
    hide Structured, Exec, Reach, Flow, CallsEarly, Count;
  }

  lemma EarlyAt(run: Run, s: nat, i: nat)
    ensures CallsAt(run, s, i) ==> CallsEarly(run, s)
  {
  }

  /** The scan of one function body (async_flow.go:248-251). */
  method CallsAfterAwait(body: Node) returns (calls: seq<nat>)
    ensures calls == ReportedCalls(body)
    ensures Misreports(body) <==> exists site :: site in calls && site in Reach(body).sites
  {
    var state := new FlowCell(START);
    var scanner := new AsyncScanner();
    scanner.Scan(body, state);
    calls := scanner.calls;
    MisreportsIff(body);
    hide Misreports, Reach, Flow;
  }
}
