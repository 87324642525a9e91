/** What an async function body may do: an execution semantics for the syntax trees of the
async control-flow analysis (internal/typefacts/tsgo/async_flow.go:339-509).

A run is a trace of completed awaits and performed calls, with how it left the node. Conditions
are free, and any evaluation may throw or never come back. */
module AsyncSemantics {
  import opened SortedRows
  import opened AsyncFlows

  datatype Event = Awaited | Called(site: nat)

  datatype Outcome = Normal | Returned | Threw | Broke | Continued | BrokeOut(name: nat) | Halted

  datatype Run = Run(trace: seq<Event>, outcome: Outcome)

  type Runs = iset<Run>

  // --- building blocks ---

  ghost function Pure(outcome: Outcome): Runs {
    iset{Run([], outcome)}
  }

  ghost function Done(): Runs {
    Pure(Normal)
  }

  ghost function Cut(): Runs {
    Pure(Threw) + Pure(Halted)
  }

  ghost function Emit(event: Event): Runs {
    iset{Run([event], Normal)}
  }

  /** First a run of `first`; what follows depends on how it ended. */
  ghost function Bind(first: Runs, next: Outcome -> Runs): Runs {
    iset run: Run | InBind(first, next, run)
  }

  ghost predicate InBind(first: Runs, next: Outcome -> Runs, run: Run) {
    exists a, b :: Follows(first, next, a, b) && run == Run(a.trace + b.trace, b.outcome)
  }

  ghost predicate Follows(first: Runs, next: Outcome -> Runs, a: Run, b: Run) {
    a in first && b in next(a.outcome)
  }

  /** On a normal end go on; any other end stands. */
  ghost function OnNormal(rest: Runs): Outcome -> Runs {
    outcome => if outcome == Normal then rest else Pure(outcome)
  }

  ghost function Seq(first: Runs, rest: Runs): Runs {
    Bind(first, OnNormal(rest))
  }

  /** One kind of end is caught and turned into what `rest` does. */
  ghost function OnCaught(caught: Outcome, rest: Runs): Outcome -> Runs {
    outcome => if outcome == caught then rest else Pure(outcome)
  }

  // --- nodes ---

  /** Every node may be cut short before it does anything. */
  ghost function Exec(node: Node): Runs
    decreases node, 1
  {
    Cut() + ExecNode(node)
  }

  ghost function ExecNode(node: Node): Runs
    decreases node, 0
  {
    match node
    case Plain(children) => Seq(ExecSeq(children), Done() + Cut())
    case Await(children) => Seq(ExecSeq(children), Cut() + Seq(Emit(Awaited), Done() + Cut()))
    case Call(site, children) => Seq(ExecSeq(children), CallOf(site))
    case Exit(children) => Seq(ExecSeq(children), Pure(Returned) + Pure(Threw))
    case Branch(condition, whenTrue, whenFalse) => Seq(Exec(condition), Exec(whenTrue) + Exec(whenFalse))
    case ShortCircuit(left, right) => Seq(Exec(left), Done() + Exec(right))
    case Loop(_, _, _, _, _) => ExecLoop(LoopParts(node.kind, Exec(node.head), Exec(node.condition), Exec(node.step), Exec(node.body)))
    case Switch(subject, clauses) => Bind(Seq(Exec(subject), ExecSelected(clauses)), OnCaught(Broke, Done()))
    case Try(block, handler, finalizer) =>
      var guarded := if handler.Some? then Bind(Exec(block), OnCaught(Threw, Exec(handler.value))) else Exec(block);
      if finalizer.Some? then Bind(guarded, OnFinal(Exec(finalizer.value))) else guarded
    case Break => Pure(Broke)
    case Continue => Pure(Continued)
    case Nested => Done()
    case Inline(_) => Done()
    case Labelled(name, body) => Bind(Exec(body), OnCaught(BrokeOut(name), Done()))
    case JumpTo(name, _) => Pure(BrokeOut(name))
    case LogicalAssign(left, right) => Seq(Exec(left), Done() + Exec(right))
    case Declare(target, initializer) => Seq(Exec(initializer), Exec(target))
    case Default(value) => Done() + Exec(value)
    case Chain(head, links) => Seq(Exec(head), ExecLinks(links))
  }

  ghost function ExecSeq(nodes: seq<Node>): Runs
    decreases nodes, 0
  {
    if nodes == [] then Done() else Seq(Exec(nodes[0]), ExecSeq(nodes[1..]))
  }

  ghost function CallOf(site: nat): Runs {
    Cut() + Seq(Emit(Called(site)), Done() + Cut())
  }

  /** At an optional link the rest of the chain may be skipped. */
  ghost function ExecLinks(links: seq<Link>): Runs
    decreases links, 0
  {
    if links == [] then Done()
    else
      var link := links[0];
      (if link.optional then Done() else iset{})
      + Seq(ExecSeq(link.arguments), Seq(if link.site.Some? then CallOf(link.site.value) else Done(), ExecLinks(links[1..])))
  }

  /** The finalizer runs however the guarded part ended, and may end otherwise itself. */
  ghost function OnFinal(finalizer: Runs): Outcome -> Runs {
    outcome => if outcome == Halted then Pure(Halted) else Bind(finalizer, OnNormal(Pure(outcome)))
  }

  // --- loops ---

  datatype LoopParts = LoopParts(kind: LoopKind, head: Runs, condition: Runs, step: Runs, body: Runs)

  /** A body that ends normally or continues goes on; a break ends the loop. */
  ghost function OnBody(goOn: Runs): Outcome -> Runs {
    outcome => if outcome == Normal || outcome == Continued then goOn else if outcome == Broke then Done() else Pure(outcome)
  }

  /** One iteration, then `again`. */
  ghost function Iteration(parts: LoopParts, again: Runs): Runs {
    match parts.kind
    case While => Seq(parts.condition, Done() + Bind(parts.body, OnBody(again)))
    case For => Seq(parts.condition, Done() + Bind(parts.body, OnBody(Seq(parts.step, again))))
    case DoWhile => Bind(parts.body, OnBody(Seq(parts.condition, Done() + again)))
    case ForEach => Done() + Seq(parts.head, Bind(parts.body, OnBody(again)))
  }

  ghost function Iterations(parts: LoopParts, n: nat): Runs {
    if n == 0 then iset{} else Iteration(parts, Iterations(parts, n - 1))
  }

  ghost function AllIterations(parts: LoopParts): Runs {
    iset run: Run | SomeIterations(parts, run)
  }

  ghost predicate SomeIterations(parts: LoopParts, run: Run) {
    exists n: nat :: WithinIterations(parts, n, run)
  }

  ghost predicate WithinIterations(parts: LoopParts, n: nat, run: Run) {
    run in Iterations(parts, n)
  }

  /** What runs once before the iterations: the initializer, or the iterated expression. */
  ghost function ExecLoop(parts: LoopParts): Runs {
    match parts.kind
    case While => AllIterations(parts)
    case DoWhile => AllIterations(parts)
    case For => Seq(parts.head, AllIterations(parts))
    case ForEach => Seq(parts.condition, AllIterations(parts))
  }

  // --- switches ---

  /** The tests of the first `m` clauses, in order. */
  ghost function ExecTests(clauses: seq<Clause>, m: nat): Runs
    requires m <= |clauses|
    decreases clauses, 0, m
  {
    if m == 0 then Done()
    else if clauses[m - 1].test.None? then ExecTests(clauses, m - 1)
    else Seq(ExecTests(clauses, m - 1), Exec(clauses[m - 1].test.value))
  }

  /** The statements from clause `c` on, falling through. */
  ghost function ExecFrom(clauses: seq<Clause>, c: nat): Runs
    requires c <= |clauses|
    decreases clauses, 0, |clauses| - c
  {
    if c == |clauses| then Done() else Seq(ExecSeq(clauses[c].statements), ExecFrom(clauses, c + 1))
  }

  /** A case is selected once the tests up to its own were evaluated; the default once all were. */
  function TestsBefore(clauses: seq<Clause>, c: nat): (m: nat)
    requires c < |clauses|
    ensures m <= |clauses|
  {
    if clauses[c].test.Some? then c + 1 else |clauses|
  }

  ghost function ExecClause(clauses: seq<Clause>, c: nat): Runs
    requires c < |clauses|
    decreases clauses, 1
  {
    Seq(ExecTests(clauses, TestsBefore(clauses, c)), ExecFrom(clauses, c))
  }

  /** No clause, or any one of them. */
  ghost function ExecSelected(clauses: seq<Clause>): Runs
    decreases clauses, 3
  {
    Seq(ExecTests(clauses, |clauses|), Cut() + if HasDefault(clauses) then iset{} else Done())
    + ExecAny(clauses, |clauses|)
  }

  ghost function ExecAny(clauses: seq<Clause>, n: nat): Runs
    requires n <= |clauses|
    decreases clauses, 2, n
  {
    if n == 0 then iset{} else ExecAny(clauses, n - 1) + ExecClause(clauses, n - 1)
  }
}
