/** What can happen before any await completes, computed from the syntax tree and exact for the
execution semantics: how a node can end, and which calls it can perform
(internal/typefacts/tsgo/async_flow.go:339-509). */
module AsyncReaches {
  import opened SortedRows
  import opened AsyncFlows
  import opened AsyncSemantics

  /** Ends reached without a completed await, and sites called before one. */
  datatype Quiet = Quiet(outcomes: set<Outcome>, sites: set<nat>)

  const NEVER := Quiet({}, {})

  function QPure(outcome: Outcome): Quiet {
    Quiet({outcome}, {})
  }

  const QDONE := Quiet({Normal}, {})

  const QCUT := Quiet({Threw, Halted}, {})

  function Both(a: Quiet, b: Quiet): Quiet {
    Quiet(a.outcomes + b.outcomes, a.sites + b.sites)
  }

  function QBind(first: Quiet, next: Outcome -> Quiet): Quiet {
    Quiet(
      set a, o | a in first.outcomes && o in next(a).outcomes :: o,
      first.sites + set a, s | a in first.outcomes && s in next(a).sites :: s)
  }

  function QOnNormal(rest: Quiet): Outcome -> Quiet {
    outcome => if outcome == Normal then rest else QPure(outcome)
  }

  function QSeq(first: Quiet, rest: Quiet): Quiet {
    QBind(first, QOnNormal(rest))
  }

  function QOnCaught(caught: Outcome, rest: Quiet): Outcome -> Quiet {
    outcome => if outcome == caught then rest else QPure(outcome)
  }

  function QOnFinal(finalizer: Quiet): Outcome -> Quiet {
    outcome => if outcome == Halted then QPure(Halted) else QBind(finalizer, QOnNormal(QPure(outcome)))
  }

  function QOnBody(goOn: Quiet): Outcome -> Quiet {
    outcome => if outcome == Normal || outcome == Continued then goOn else if outcome == Broke then QDONE else QPure(outcome)
  }

  // --- the analysis ---

  function Reach(node: Node): Quiet
    decreases node, 1
  {
    Both(QCUT, ReachNode(node))
  }

  function ReachNode(node: Node): Quiet
    decreases node, 0
  {
    match node
    case Plain(children) => QSeq(ReachSeq(children), Both(QDONE, QCUT))
    case Await(children) => QSeq(ReachSeq(children), QCUT)
    case Call(site, children) => QSeq(ReachSeq(children), QCall(site))
    case Exit(children) => QSeq(ReachSeq(children), Both(QPure(Returned), QPure(Threw)))
    case Branch(condition, whenTrue, whenFalse) => QSeq(Reach(condition), Both(Reach(whenTrue), Reach(whenFalse)))
    case ShortCircuit(left, right) => QSeq(Reach(left), Both(QDONE, Reach(right)))
    case Loop(_, _, _, _, _) => ReachLoop(QParts(node.kind, Reach(node.head), Reach(node.condition), Reach(node.step), Reach(node.body)))
    case Switch(subject, clauses) => QBind(QSeq(Reach(subject), ReachSelected(clauses)), QOnCaught(Broke, QDONE))
    case Try(block, handler, finalizer) =>
      var guarded := if handler.Some? then QBind(Reach(block), QOnCaught(Threw, Reach(handler.value))) else Reach(block);
      if finalizer.Some? then QBind(guarded, QOnFinal(Reach(finalizer.value))) else guarded
    case Break => QPure(Broke)
    case Continue => QPure(Continued)
    case Nested => QDONE
    case Inline(_) => QDONE
    case Labelled(name, body) => QBind(Reach(body), QOnCaught(BrokeOut(name), QDONE))
    case JumpTo(name, _) => QPure(BrokeOut(name))
    case LogicalAssign(left, right) => QSeq(Reach(left), Both(QDONE, Reach(right)))
    case Declare(target, initializer) => QSeq(Reach(initializer), Reach(target))
    case Default(value) => Both(QDONE, Reach(value))
    case Chain(head, links) => QSeq(Reach(head), ReachLinks(links))
  }

  function ReachSeq(nodes: seq<Node>): Quiet
    decreases nodes, 0
  {
    if nodes == [] then QDONE else QSeq(Reach(nodes[0]), ReachSeq(nodes[1..]))
  }

  function QCall(site: nat): Quiet {
    Quiet({Normal, Threw, Halted}, {site})
  }

  function ReachLinks(links: seq<Link>): Quiet
    decreases links, 0
  {
    if links == [] then QDONE
    else
      var link := links[0];
      Both(if link.optional then QDONE else NEVER,
        QSeq(ReachSeq(link.arguments), QSeq(if link.site.Some? then QCall(link.site.value) else QDONE, ReachLinks(links[1..]))))
  }

  datatype QParts = QParts(kind: LoopKind, head: Quiet, condition: Quiet, step: Quiet, body: Quiet)

  function QIteration(parts: QParts, again: Quiet): Quiet {
    match parts.kind
    case While => QSeq(parts.condition, Both(QDONE, QBind(parts.body, QOnBody(again))))
    case For => QSeq(parts.condition, Both(QDONE, QBind(parts.body, QOnBody(QSeq(parts.step, again)))))
    case DoWhile => QBind(parts.body, QOnBody(QSeq(parts.condition, Both(QDONE, again))))
    case ForEach => Both(QDONE, QSeq(parts.head, QBind(parts.body, QOnBody(again))))
  }

  /** One iteration is enough: without an await, a second one starts where the first did. */
  function ReachLoop(parts: QParts): Quiet {
    var once := QIteration(parts, NEVER);
    match parts.kind
    case While => once
    case DoWhile => once
    case For => QSeq(parts.head, once)
    case ForEach => QSeq(parts.condition, once)
  }

  function ReachTests(clauses: seq<Clause>, m: nat): Quiet
    requires m <= |clauses|
    decreases clauses, 0, m
  {
    if m == 0 then QDONE
    else if clauses[m - 1].test.None? then ReachTests(clauses, m - 1)
    else QSeq(ReachTests(clauses, m - 1), Reach(clauses[m - 1].test.value))
  }

  function ReachFrom(clauses: seq<Clause>, c: nat): Quiet
    requires c <= |clauses|
    decreases clauses, 0, |clauses| - c
  {
    if c == |clauses| then QDONE else QSeq(ReachSeq(clauses[c].statements), ReachFrom(clauses, c + 1))
  }

  function ReachClause(clauses: seq<Clause>, c: nat): Quiet
    requires c < |clauses|
    decreases clauses, 1
  {
    QSeq(ReachTests(clauses, TestsBefore(clauses, c)), ReachFrom(clauses, c))
  }

  function ReachSelected(clauses: seq<Clause>): Quiet
    decreases clauses, 3
  {
    Both(QSeq(ReachTests(clauses, |clauses|), Both(QCUT, if HasDefault(clauses) then NEVER else QDONE)), ReachAny(clauses, |clauses|))
  }

  function ReachAny(clauses: seq<Clause>, n: nat): Quiet
    requires n <= |clauses|
    decreases clauses, 2, n
  {
    if n == 0 then NEVER else Both(ReachAny(clauses, n - 1), ReachClause(clauses, n - 1))
  }

  // --- exactness ---

  ghost predicate Silent(run: Run) {
    Awaited !in run.trace
  }

  /** The run performs the call before any await completes. */
  ghost predicate CallsEarly(run: Run, site: nat) {
    exists i :: CallsAt(run, site, i)
  }

  ghost predicate CallsAt(run: Run, site: nat, i: nat) {
    i < |run.trace| && run.trace[i] == Called(site) && Awaited !in run.trace[..i]
  }

  ghost predicate Ends(runs: Runs, outcome: Outcome) {
    exists run :: run in runs && Silent(run) && run.outcome == outcome
  }

  ghost predicate Calls(runs: Runs, site: nat) {
    exists run :: run in runs && CallsEarly(run, site)
  }

  ghost predicate Sound(runs: Runs, quiet: Quiet) {
    && (forall run :: run in runs && Silent(run) ==> run.outcome in quiet.outcomes)
    && (forall run, site :: run in runs && CallsEarly(run, site) ==> site in quiet.sites)
  }

  ghost predicate Inhabited(runs: Runs) {
    exists run :: run in runs
  }

  ghost predicate Complete(runs: Runs, quiet: Quiet) {
    && Inhabited(runs)
    && (forall outcome :: outcome in quiet.outcomes ==> Ends(runs, outcome))
    && (forall site :: site in quiet.sites ==> Calls(runs, site))
  }

  ghost predicate Exact(runs: Runs, quiet: Quiet) {
    Sound(runs, quiet) && Complete(runs, quiet)
  }

  // --- the building blocks are exact ---

  lemma PureExact(outcome: Outcome)
    ensures Exact(Pure(outcome), QPure(outcome))
  {
    var run := Run([], outcome);
    assert run in Pure(outcome) && Silent(run);
  }

  lemma DoneExact()
    ensures Exact(Done(), QDONE)
  {
    PureExact(Normal);
  }

  lemma OrSound(a: Runs, b: Runs, p: Quiet, q: Quiet)
    requires Sound(a, p) && Sound(b, q)
    ensures Sound(a + b, Both(p, q))
  {
    hide Silent, CallsEarly;
  }

  lemma OrExact(a: Runs, b: Runs, p: Quiet, q: Quiet)
    requires Exact(a, p) && Exact(b, q)
    ensures Exact(a + b, Both(p, q))
  {
    hide Silent, CallsEarly;
    OrSound(a, b, p, q);
    OrComplete(a, b, p, q);
  }

  lemma OrComplete(a: Runs, b: Runs, p: Quiet, q: Quiet)
    requires Complete(a, p) && Complete(b, q)
    ensures Complete(a + b, Both(p, q))
  {
    hide Silent, CallsEarly;
    var all := a + b;
    var run :| run in a;
    assert run in all;
    forall outcome | outcome in Both(p, q).outcomes ensures Ends(all, outcome) {
      if outcome in p.outcomes { EndsMore(a, all, outcome); } else { EndsMore(b, all, outcome); }
    }
    forall site | site in Both(p, q).sites ensures Calls(all, site) {
      if site in p.sites { CallsMore(a, all, site); } else { CallsMore(b, all, site); }
    }
  }

  lemma EndsMore(a: Runs, all: Runs, outcome: Outcome)
    requires Ends(a, outcome) && forall run :: run in a ==> run in all
    ensures Ends(all, outcome)
  {
  }

  lemma CallsMore(a: Runs, all: Runs, site: nat)
    requires Calls(a, site) && forall run :: run in a ==> run in all
    ensures Calls(all, site)
  {
  }

  lemma CutExact()
    ensures Exact(Cut(), QCUT)
  {
    PureExact(Threw);
    PureExact(Halted);
    OrExact(Pure(Threw), Pure(Halted), QPure(Threw), QPure(Halted));
    assert Both(QPure(Threw), QPure(Halted)) == QCUT;
    hide Exact;
  }

  // --- traces ---

  lemma SilentParts(a: Run, b: Run)
    ensures Silent(Run(a.trace + b.trace, b.outcome)) <==> Silent(a) && Silent(b)
  {
  }

  lemma EarlyParts(a: Run, b: Run, site: nat)
    ensures CallsEarly(Run(a.trace + b.trace, b.outcome), site) <==> CallsEarly(a, site) || (Silent(a) && CallsEarly(b, site))
  {
    var both := Run(a.trace + b.trace, b.outcome);
    if CallsEarly(both, site) {
      var i: nat :| CallsAt(both, site, i);
      if i < |a.trace| {
        assert both.trace[..i] == a.trace[..i];
        assert CallsAt(a, site, i);
      } else {
        assert both.trace[..i] == a.trace + b.trace[..i - |a.trace|];
        assert CallsAt(b, site, i - |a.trace|);
      }
    }
    if CallsEarly(a, site) {
      var i: nat :| CallsAt(a, site, i);
      assert both.trace[..i] == a.trace[..i];
      assert CallsAt(both, site, i);
    } else if Silent(a) && CallsEarly(b, site) {
      var i: nat :| CallsAt(b, site, i);
      assert both.trace[..|a.trace| + i] == a.trace + b.trace[..i];
      assert CallsAt(both, site, |a.trace| + i);
    }
  }

  lemma InBindIs(first: Runs, next: Outcome -> Runs, a: Run, b: Run)
    requires a in first && b in next(a.outcome)
    ensures Run(a.trace + b.trace, b.outcome) in Bind(first, next)
  {
    assert Follows(first, next, a, b);
  }

  lemma BindSound(first: Runs, next: Outcome -> Runs, p: Quiet, q: Outcome -> Quiet)
    requires Sound(first, p) && forall o :: o in p.outcomes ==> Sound(next(o), q(o))
    ensures Sound(Bind(first, next), QBind(p, q))
  {
    hide Silent, CallsEarly;
    forall run | run in Bind(first, next)
      ensures Silent(run) ==> run.outcome in QBind(p, q).outcomes
      ensures forall site :: CallsEarly(run, site) ==> site in QBind(p, q).sites
    {
      var a, b :| Follows(first, next, a, b) && run == Run(a.trace + b.trace, b.outcome);
      SilentParts(a, b);
      forall site | CallsEarly(run, site) ensures site in QBind(p, q).sites {
        EarlyParts(a, b, site);
        if !CallsEarly(a, site) {
          assert a.outcome in p.outcomes && site in q(a.outcome).sites;
        }
      }
      if Silent(run) { assert a.outcome in p.outcomes && run.outcome in q(a.outcome).outcomes; }
    }
  }

  lemma BindComplete(first: Runs, next: Outcome -> Runs, p: Quiet, q: Outcome -> Quiet)
    requires Complete(first, p) && (forall o :: Inhabited(next(o))) && forall o :: o in p.outcomes ==> Complete(next(o), q(o))
    ensures Complete(Bind(first, next), QBind(p, q))
  {
    hide Silent, CallsEarly;
    var all := Bind(first, next);
    var a0 :| a0 in first;
    assert Inhabited(next(a0.outcome));
    var b0 :| b0 in next(a0.outcome);
    InBindIs(first, next, a0, b0);
    forall outcome | outcome in QBind(p, q).outcomes ensures Ends(all, outcome) {
      var o :| o in p.outcomes && outcome in q(o).outcomes;
      BindEnds(first, next, p, q, o, outcome);
    }
    forall site | site in QBind(p, q).sites ensures Calls(all, site) {
      if site in p.sites {
        BindCallsFirst(first, next, p, site);
      } else {
        var o :| o in p.outcomes && site in q(o).sites;
        BindCallsNext(first, next, p, q, o, site);
      }
    }
    hide Bind;
  }

  lemma BindEnds(first: Runs, next: Outcome -> Runs, p: Quiet, q: Outcome -> Quiet, o: Outcome, outcome: Outcome)
    requires Complete(first, p) && o in p.outcomes && Complete(next(o), q(o)) && outcome in q(o).outcomes
    ensures Ends(Bind(first, next), outcome)
  {
    hide Silent, CallsEarly;
    assert Ends(first, o) && Ends(next(o), outcome);
    var a :| a in first && Silent(a) && a.outcome == o;
    var b :| b in next(o) && Silent(b) && b.outcome == outcome;
    InBindIs(first, next, a, b);
    SilentParts(a, b);
    hide Bind;
  }

  lemma BindCallsFirst(first: Runs, next: Outcome -> Runs, p: Quiet, site: nat)
    requires Complete(first, p) && site in p.sites && forall o :: Inhabited(next(o))
    ensures Calls(Bind(first, next), site)
  {
    hide Silent, CallsEarly;
    assert Calls(first, site);
    var a :| a in first && CallsEarly(a, site);
    assert Inhabited(next(a.outcome));
    var b :| b in next(a.outcome);
    InBindIs(first, next, a, b);
    EarlyParts(a, b, site);
    hide Bind;
  }

  lemma BindCallsNext(first: Runs, next: Outcome -> Runs, p: Quiet, q: Outcome -> Quiet, o: Outcome, site: nat)
    requires Complete(first, p) && o in p.outcomes && Complete(next(o), q(o)) && site in q(o).sites
    ensures Calls(Bind(first, next), site)
  {
    hide Silent, CallsEarly;
    assert Ends(first, o) && Calls(next(o), site);
    var a :| a in first && Silent(a) && a.outcome == o;
    var b :| b in next(o) && CallsEarly(b, site);
    InBindIs(first, next, a, b);
    EarlyParts(a, b, site);
    hide Bind;
  }

  lemma PureRuns(outcome: Outcome)
    ensures Inhabited(Pure(outcome))
  {
    assert Run([], outcome) in Pure(outcome);
  }

  lemma SeqExact(first: Runs, rest: Runs, p: Quiet, q: Quiet)
    requires Exact(first, p) && Exact(rest, q)
    ensures Exact(Seq(first, rest), QSeq(p, q))
  {
    hide Sound, Complete, Bind, QBind;
    NextExact(OnNormal(rest), QOnNormal(q), rest, q);
    BindExact(first, OnNormal(rest), p, QOnNormal(q));
  }

  /** Continuations that go on with `rest` or stop are exact when `rest` is. */
  lemma NextExact(next: Outcome -> Runs, q: Outcome -> Quiet, rest: Runs, quiet: Quiet)
    requires Exact(rest, quiet)
    requires forall o :: (next(o) == rest && q(o) == quiet) || (next(o) == Pure(o) && q(o) == QPure(o)) || (next(o) == Done() && q(o) == QDONE)
    ensures forall o :: Exact(next(o), q(o))
  {
    hide Exact;
    DoneExact();
    forall o ensures Exact(next(o), q(o)) {
      PureExact(o);
    }
  }

  lemma BindExact(first: Runs, next: Outcome -> Runs, p: Quiet, q: Outcome -> Quiet)
    requires Exact(first, p) && forall o :: Exact(next(o), q(o))
    ensures Exact(Bind(first, next), QBind(p, q))
  {
    forall o ensures Sound(next(o), q(o)) && Complete(next(o), q(o)) && Inhabited(next(o)) {
      assert Exact(next(o), q(o));
    }
    hide Sound, Bind, QBind;
    BindSound(first, next, p, q);
    hide Complete;
    BindComplete(first, next, p, q);
  }
}
