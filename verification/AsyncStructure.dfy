/** The family of bodies the async control-flow analysis is right about, construct by construct
(internal/typefacts/tsgo/async_flow.go:339-509). */
module AsyncStructures {
  import opened SortedRows
  import opened AsyncFlows
  import opened AsyncSemantics
  import opened AsyncReaches

  /** How the scan of a function starts. */
  const START := State(false, true)

  /** How often a call site is written in the body; nested functions are not part of it. */
  function Count(node: Node, s: nat): nat
    decreases node
  {
    match node
    case Plain(children) => CountSeq(children, s)
    case Await(children) => CountSeq(children, s)
    case Call(site, children) => CountSeq(children, s) + One(Some(site), s)
    case Exit(children) => CountSeq(children, s)
    case Branch(condition, whenTrue, whenFalse) => Count(condition, s) + (Count(whenTrue, s) + Count(whenFalse, s))
    case ShortCircuit(left, right) => Count(left, s) + Count(right, s)
    case Loop(_, head, condition, step, body) => Count(head, s) + Count(condition, s) + Count(step, s) + Count(body, s)
    case Switch(subject, clauses) => Count(subject, s) + CountClauses(clauses, s)
    case Try(block, handler, finalizer) =>
      Count(block, s) + (if handler.Some? then Count(handler.value, s) else 0) + (if finalizer.Some? then Count(finalizer.value, s) else 0)
    case Break => 0
    case Continue => 0
    case Nested => 0
    case Inline(children) => CountSeq(children, s)
    case Labelled(_, body) => Count(body, s)
    case JumpTo(_, _) => 0
    case LogicalAssign(left, right) => Count(left, s) + Count(right, s)
    case Declare(target, initializer) => Count(initializer, s) + Count(target, s)
    case Default(value) => Count(value, s)
    case Chain(head, links) => Count(head, s) + CountLinks(links, s)
  }

  function One(site: Option<nat>, s: nat): nat {
    if site == Some(s) then 1 else 0
  }

  function CountSeq(nodes: seq<Node>, s: nat): nat
    decreases nodes
  {
    if nodes == [] then 0 else Count(nodes[0], s) + CountSeq(nodes[1..], s)
  }

  function CountLinks(links: seq<Link>, s: nat): nat
    decreases links
  {
    if links == [] then 0 else CountSeq(links[0].arguments, s) + (One(links[0].site, s) + CountLinks(links[1..], s))
  }

  function CountTest(test: Option<Node>, s: nat): nat {
    if test.Some? then Count(test.value, s) else 0
  }

  function CountClauses(clauses: seq<Clause>, s: nat): nat
    decreases clauses
  {
    if clauses == [] then 0 else CountTest(clauses[0].test, s) + CountSeq(clauses[0].statements, s) + CountClauses(clauses[1..], s)
  }

  // --- the family ---

  /** Scanned before any await, the node leaves the scan where it was. */
  predicate Steady(node: Node) {
    Flow(node, START).state == START
  }

  /** The jump is not taken before an await. */
  predicate Tidy(node: Node, jump: Outcome) {
    jump !in Reach(node).outcomes
  }

  /** Parts that may be skipped, or that run later than they are written, must be steady, and so
  must what a finalizer waits for; a jump the scan does not follow must not overtake an await. */
  predicate Structured(node: Node)
    decreases node
  {
    match node
    case Plain(children) => StructuredSeq(children)
    case Await(children) => StructuredSeq(children)
    case Call(_, children) => StructuredSeq(children)
    case Exit(children) => StructuredSeq(children)
    case Branch(condition, whenTrue, whenFalse) => Structured(condition) && Structured(whenTrue) && Structured(whenFalse)
    case ShortCircuit(left, right) => Structured(left) && Structured(right)
    case Loop(kind, head, condition, step, body) =>
      && Structured(head) && Structured(condition) && Structured(step) && Structured(body)
      && (kind == DoWhile ==> Steady(body) || Tidy(body, Continued))
      && (kind == For ==> Steady(step))
      && (kind == ForEach ==> Steady(head))
    case Switch(subject, clauses) =>
      Structured(subject) && StructuredClauses(clauses) && (Steady(node) || (Tidy(subject, Broke) && TidyClauses(clauses)))
    case Try(block, handler, finalizer) =>
      && Structured(block) && (handler.Some? ==> Structured(handler.value))
      && (finalizer.Some? ==> Structured(finalizer.value) && (Steady(block) || (handler.Some? && Steady(handler.value))))
    case Break => true
    case Continue => true
    case Nested => true
    case Inline(children) => StructuredSeq(children) && FlowSeq(children, START).state == START
    case Labelled(name, body) => Structured(body) && (Steady(body) || Tidy(body, BrokeOut(name)))
    case JumpTo(_, _) => true
    case LogicalAssign(left, right) => Structured(left) && Structured(right) && Steady(right)
    case Declare(target, initializer) => Structured(initializer) && Structured(target) && Steady(target)
    case Default(value) => Structured(value) && Steady(value)
    case Chain(head, links) => Structured(head) && StructuredLinks(links)
  }

  predicate StructuredSeq(nodes: seq<Node>)
    decreases nodes
  {
    nodes == [] || (Structured(nodes[0]) && StructuredSeq(nodes[1..]))
  }

  predicate StructuredLinks(links: seq<Link>)
    decreases links
  {
    links == [] || (StructuredSeq(links[0].arguments) && StructuredLinks(links[1..])
                    && (links[0].optional ==> FlowLinks(links, START).state == START))
  }

  predicate StructuredClauses(clauses: seq<Clause>)
    decreases clauses
  {
    clauses == [] || ((clauses[0].test.Some? ==> Structured(clauses[0].test.value)) && StructuredSeq(clauses[0].statements)
                      && StructuredClauses(clauses[1..]))
  }

  /** The breaks of a switch stand directly among its clause statements, or come after an await. */
  predicate TidyBody(statements: seq<Node>) {
    forall k :: 0 <= k < |statements| ==> IsBreak(statements[k]) || Tidy(statements[k], Broke)
  }

  predicate TidyClauses(clauses: seq<Clause>) {
    forall c :: 0 <= c < |clauses| ==> TidyBody(clauses[c].statements) && (clauses[c].test.Some? ==> Tidy(clauses[c].test.value, Broke))
  }

  // --- what the scan and the reach of one part keep together ---

  /** Scanned from the start, a part that can end without an await leaves the scan at the start,
  and a site both reported and called early is written twice. */
  ghost predicate Tracks(entry: State, quiet: Quiet, scan: Scan, count: nat, s: nat) {
    && (s in scan.calls || s in quiet.sites ==> count >= 1)
    && (entry == START ==> (Normal in quiet.outcomes ==> scan.state == START) && (s in scan.calls && s in quiet.sites ==> count >= 2))
  }

  lemma TrackSeq(entry: State, p: Quiet, a: Scan, m: nat, q: Quiet, b: Scan, n: nat, s: nat)
    requires Tracks(entry, p, a, m, s) && Tracks(a.state, q, b, n, s)
    ensures Tracks(entry, QSeq(p, q), Then(a, b), m + n, s)
  {
    SeqParts(p, q);
    hide QSeq;
  }

  lemma SeqParts(p: Quiet, q: Quiet)
    ensures Normal in QSeq(p, q).outcomes <==> Normal in p.outcomes && Normal in q.outcomes
    ensures QSeq(p, q).sites == p.sites + (if Normal in p.outcomes then q.sites else {})
  {
    if Normal in p.outcomes && Normal in q.outcomes {
      assert Normal in QOnNormal(q)(Normal).outcomes;
    }
    if Normal in p.outcomes {
      assert forall s :: s in q.sites ==> s in QOnNormal(q)(Normal).sites;
    }
  }

  /** A caught jump ends normally and calls nothing. */
  lemma CaughtParts(p: Quiet, caught: Outcome, q: Quiet)
    requires caught != Normal
    ensures QBind(p, QOnCaught(caught, q)).sites == p.sites + (if caught in p.outcomes then q.sites else {})
    ensures Normal in QBind(p, QOnCaught(caught, q)).outcomes <==> Normal in p.outcomes || (caught in p.outcomes && Normal in q.outcomes)
  {
    if Normal in p.outcomes { assert Normal in QOnCaught(caught, q)(Normal).outcomes; }
    if caught in p.outcomes {
      assert forall s :: s in q.sites ==> s in QOnCaught(caught, q)(caught).sites;
      if Normal in q.outcomes { assert Normal in QOnCaught(caught, q)(caught).outcomes; }
    }
  }

  /** Evaluated as `a` then `b`, written as `b` then `a`. */
  lemma TrackSwap(entry: State, p: Quiet, a: Scan, m: nat, q: Quiet, b: Scan, n: nat, s: nat)
    requires Tracks(entry, q, b, n, s) && Tracks(b.state, p, a, m, s) && (entry == START ==> b.state == START)
    ensures Tracks(entry, Quiet(p.outcomes, p.sites + q.sites), Then(b, a), m + n, s)
  {
  }

  /** Two alternatives. */
  lemma TrackMerge(entry: State, p: Quiet, a: Scan, m: nat, q: Quiet, b: Scan, n: nat, s: nat)
    requires Tracks(entry, p, a, m, s) && Tracks(entry, q, b, n, s)
    ensures Tracks(entry, Both(p, q), Scan(Merge(a.state, b.state), a.calls + b.calls), m + n, s)
  {
  }

  lemma TrackAs(entry: State, p: Quiet, a: Scan, m: nat, q: Quiet, b: Scan, s: nat)
    requires Tracks(entry, p, a, m, s) && q.sites <= p.sites
    requires s in b.calls ==> s in a.calls || (entry != START && m >= 1)
    requires entry == START && Normal in q.outcomes ==> b.state == START
    ensures Tracks(entry, q, b, m, s)
  {
  }

  lemma TrackNothing(entry: State, q: Quiet, s: nat)
    requires q.sites == {}
    ensures Tracks(entry, q, Scan(entry, []), 0, s)
  {
  }

  lemma TrackCall(entry: State, site: nat, s: nat)
    ensures Tracks(entry, QCall(site), Scan(entry, []), One(Some(site), s), s)
  {
  }
}
