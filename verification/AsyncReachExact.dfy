/** The computed ends and early calls are exactly those of the execution semantics, for every node. */
module AsyncReachExactness {
  import opened SortedRows
  import opened AsyncFlows
  import opened AsyncSemantics
  import opened AsyncReaches
  import opened AsyncLoopExactness

  // --- parts that may be missing ---

  lemma MaybeExact(left: Runs, right: Runs, p: Quiet, q: Quiet)
    requires Exact(left, p) && Exact(right, q)
    ensures Exact(Seq(left, Done() + right), QSeq(p, Both(QDONE, q)))
  {
    hide Exact, Seq, QSeq, Done;
    DoneExact();
    OrExact(Done(), right, QDONE, q);
    SeqExact(left, Done() + right, p, Both(QDONE, q));
  }

  /** Exact, or without any run. */
  ghost predicate ExactOrNone(runs: Runs, quiet: Quiet) {
    Exact(runs, quiet) || (runs == iset{} && quiet == NEVER)
  }

  lemma OrNone(maybe: Runs, main: Runs, p: Quiet, q: Quiet)
    requires ExactOrNone(maybe, p) && Exact(main, q)
    ensures Exact(maybe + main, Both(p, q))
    ensures Exact(main + maybe, Both(q, p))
  {
    hide Exact;
    if Exact(maybe, p) {
      OrExact(maybe, main, p, q);
      OrExact(main, maybe, q, p);
    } else {
      assert maybe + main == main && main + maybe == main;
      assert Both(p, q) == q && Both(q, p) == q;
    }
  }

  // --- nodes ---

  lemma Halts(node: Node)
    ensures CanHalt(Exec(node))
  {
    hide ExecNode;
  }

  /** The analysis of a node is exact. */
  lemma {:induction false} ReachExact(node: Node)
    ensures Exact(Exec(node), Reach(node))
    decreases node, 2
  {
    hide Exact, ExecNode, ReachNode, Cut;
    ReachNodeExact(node);
    CutExact();
    OrExact(Cut(), ExecNode(node), QCUT, ReachNode(node));
  }

  lemma {:induction false} ReachNodeExact(node: Node)
    ensures Exact(ExecNode(node), ReachNode(node))
    decreases node, 1
  {
    hide Exact, ExecNode, ReachNode;
    match node {
      case Plain(children) => ChildrenExact(node);
      case Await(children) => ChildrenExact(node);
      case Call(site, children) => ChildrenExact(node);
      case Exit(children) => ChildrenExact(node);
      case Branch(_, _, _) => ChoiceExact(node);
      case ShortCircuit(_, _) => ChoiceExact(node);
      case LogicalAssign(_, _) => ChoiceExact(node);
      case Declare(_, _) => ChoiceExact(node);
      case Default(_) => ChoiceExact(node);
      case Loop(_, _, _, _, _) => LoopNodeExact(node);
      case Switch(_, _) => SwitchExact(node);
      case Try(_, _, _) => TryExact(node);
      case Labelled(_, _) => ChoiceExact(node);
      case Chain(_, _) => ChainExact(node);
      case Break => LeafExact(node);
      case Continue => LeafExact(node);
      case Nested => LeafExact(node);
      case Inline(_) => LeafExact(node);
      case JumpTo(_, _) => LeafExact(node);
    }
  }

  lemma LeafExact(node: Node)
    requires node.Break? || node.Continue? || node.Nested? || node.Inline? || node.JumpTo?
    ensures Exact(ExecNode(node), ReachNode(node))
  {
    hide Exact, Pure;
    PureExact(Normal);
    match node {
      case Break => PureExact(Broke);
      case Continue => PureExact(Continued);
      case JumpTo(name, _) => PureExact(BrokeOut(name));
      case Nested =>
      case Inline(_) =>
    }
  }

  /** Nodes that do something once their children were evaluated. */
  lemma {:induction false} ChildrenExact(node: Node)
    requires node.Plain? || node.Await? || node.Call? || node.Exit?
    ensures Exact(ExecNode(node), ReachNode(node))
    decreases node, 0
  {
    hide Exact, ExecSeq, ReachSeq, Seq, QSeq, Cut, Done, CallOf, Pure;
    ReachSeqExact(node.children);
    match node {
      case Plain(children) =>
        DoneOrCutExact();
        SeqExact(ExecSeq(children), Done() + Cut(), ReachSeq(children), Both(QDONE, QCUT));
      case Await(children) =>
        AwaitExact();
        SeqExact(ExecSeq(children), Cut() + Seq(Emit(Awaited), Done() + Cut()), ReachSeq(children), QCUT);
      case Call(site, children) =>
        CallExact(site);
        SeqExact(ExecSeq(children), CallOf(site), ReachSeq(children), QCall(site));
      case Exit(children) =>
        PureExact(Returned);
        PureExact(Threw);
        OrExact(Pure(Returned), Pure(Threw), QPure(Returned), QPure(Threw));
        SeqExact(ExecSeq(children), Pure(Returned) + Pure(Threw), ReachSeq(children), Both(QPure(Returned), QPure(Threw)));
    }
  }

  lemma {:induction false} ChoiceExact(node: Node)
    requires node.Branch? || node.ShortCircuit? || node.LogicalAssign? || node.Declare? || node.Default? || node.Labelled?
    ensures Exact(ExecNode(node), ReachNode(node))
    decreases node, 0
  {
    hide Exact, Exec, Reach, Seq, QSeq, Bind, QBind, Done;
    DoneExact();
    match node {
      case Branch(condition, whenTrue, whenFalse) =>
        ReachExact(condition);
        ReachExact(whenTrue);
        ReachExact(whenFalse);
        OrExact(Exec(whenTrue), Exec(whenFalse), Reach(whenTrue), Reach(whenFalse));
        SeqExact(Exec(condition), Exec(whenTrue) + Exec(whenFalse), Reach(condition), Both(Reach(whenTrue), Reach(whenFalse)));
      case ShortCircuit(left, right) =>
        ReachExact(left);
        ReachExact(right);
        MaybeExact(Exec(left), Exec(right), Reach(left), Reach(right));
      case LogicalAssign(left, right) =>
        ReachExact(left);
        ReachExact(right);
        MaybeExact(Exec(left), Exec(right), Reach(left), Reach(right));
      case Declare(target, initializer) =>
        ReachExact(target);
        ReachExact(initializer);
        SeqExact(Exec(initializer), Exec(target), Reach(initializer), Reach(target));
      case Default(value) =>
        ReachExact(value);
        OrExact(Done(), Exec(value), QDONE, Reach(value));
      case Labelled(name, body) =>
        ReachExact(body);
        CaughtExact(Exec(body), Reach(body), BrokeOut(name), Done(), QDONE);
    }
  }

  lemma {:induction false} LoopNodeExact(node: Node)
    requires node.Loop?
    ensures Exact(ExecNode(node), ReachNode(node))
    decreases node, 0
  {
    hide Exact, Exec, Reach, ExecLoop, ReachLoop;
    var head, condition, step, body := node.head, node.condition, node.step, node.body;
    ReachExact(head);
    ReachExact(condition);
    ReachExact(step);
    ReachExact(body);
    Halts(head);
    Halts(condition);
    Halts(body);
    LoopExact(LoopParts(node.kind, Exec(head), Exec(condition), Exec(step), Exec(body)),
      QParts(node.kind, Reach(head), Reach(condition), Reach(step), Reach(body)));
  }

  lemma {:induction false} SwitchExact(node: Node)
    requires node.Switch?
    ensures Exact(ExecNode(node), ReachNode(node))
    decreases node, 0
  {
    hide Exact, Exec, Reach, ExecSelected, ReachSelected, Seq, QSeq, Bind, QBind, Done;
    var subject, clauses := node.subject, node.clauses;
    DoneExact();
    ReachExact(subject);
    SelectedExact(clauses);
    SeqExact(Exec(subject), ExecSelected(clauses), Reach(subject), ReachSelected(clauses));
    CaughtExact(Seq(Exec(subject), ExecSelected(clauses)), QSeq(Reach(subject), ReachSelected(clauses)), Broke, Done(), QDONE);
  }

  lemma {:induction false} ChainExact(node: Node)
    requires node.Chain?
    ensures Exact(ExecNode(node), ReachNode(node))
    decreases node, 0
  {
    hide Exact, Exec, Reach, ExecLinks, ReachLinks, Seq, QSeq;
    ReachExact(node.head);
    LinksExact(node.links);
    SeqExact(Exec(node.head), ExecLinks(node.links), Reach(node.head), ReachLinks(node.links));
  }

  lemma {:induction false} ReachSeqExact(nodes: seq<Node>)
    ensures Exact(ExecSeq(nodes), ReachSeq(nodes))
    decreases nodes, 3
  {
    hide Exact, Exec, Reach, Seq, QSeq, Done;
    if nodes == [] {
      DoneExact();
    } else {
      ReachExact(nodes[0]);
      ReachSeqExact(nodes[1..]);
      SeqExact(Exec(nodes[0]), ExecSeq(nodes[1..]), Reach(nodes[0]), ReachSeq(nodes[1..]));
    }
  }

  lemma TryExact(node: Node)
    requires node.Try?
    ensures Exact(ExecNode(node), ReachNode(node))
    decreases node, 0
  {
    hide Exact, Exec, Reach, Bind, QBind;
    var block := node.block;
    ReachExact(block);
    var guarded, quiet := Exec(block), Reach(block);
    if node.handler.Some? {
      ReachExact(node.handler.value);
      CaughtExact(guarded, quiet, Threw, Exec(node.handler.value), Reach(node.handler.value));
      guarded := Bind(Exec(block), OnCaught(Threw, Exec(node.handler.value)));
      quiet := QBind(Reach(block), QOnCaught(Threw, Reach(node.handler.value)));
    }
    if node.finalizer.Some? {
      ReachExact(node.finalizer.value);
      FinalExact(guarded, quiet, Exec(node.finalizer.value), Reach(node.finalizer.value));
    }
  }

  lemma {:induction false} LinksExact(links: seq<Link>)
    ensures Exact(ExecLinks(links), ReachLinks(links))
    decreases links, 3
  {
    hide Exact, ExecSeq, ReachSeq, Seq, QSeq, Done, CallOf;
    DoneExact();
    if links != [] {
      var link := links[0];
      ReachSeqExact(link.arguments);
      LinksExact(links[1..]);
      var call, quiet := Done(), QDONE;
      if link.site.Some? {
        CallExact(link.site.value);
        call, quiet := CallOf(link.site.value), QCall(link.site.value);
      }
      SeqExact(call, ExecLinks(links[1..]), quiet, ReachLinks(links[1..]));
      SeqExact(ExecSeq(link.arguments), Seq(call, ExecLinks(links[1..])), ReachSeq(link.arguments), QSeq(quiet, ReachLinks(links[1..])));
      OrNone(if link.optional then Done() else iset{}, Seq(ExecSeq(link.arguments), Seq(call, ExecLinks(links[1..]))),
        if link.optional then QDONE else NEVER, QSeq(ReachSeq(link.arguments), QSeq(quiet, ReachLinks(links[1..]))));
    }
  }

  // --- switches ---

  lemma {:induction false} TestsExact(clauses: seq<Clause>, m: nat)
    requires m <= |clauses|
    ensures Exact(ExecTests(clauses, m), ReachTests(clauses, m))
    decreases clauses, 0, m
  {
    hide Exact, Exec, Reach, Seq, QSeq, Done;
    if m == 0 {
      DoneExact();
    } else {
      TestsExact(clauses, m - 1);
      if clauses[m - 1].test.Some? {
        ReachExact(clauses[m - 1].test.value);
        SeqExact(ExecTests(clauses, m - 1), Exec(clauses[m - 1].test.value), ReachTests(clauses, m - 1), Reach(clauses[m - 1].test.value));
      }
    }
  }

  lemma {:induction false} FromExact(clauses: seq<Clause>, c: nat)
    requires c <= |clauses|
    ensures Exact(ExecFrom(clauses, c), ReachFrom(clauses, c))
    decreases clauses, 0, |clauses| - c
  {
    hide Exact, ExecSeq, ReachSeq, Seq, QSeq, Done;
    if c == |clauses| {
      DoneExact();
    } else {
      ReachSeqExact(clauses[c].statements);
      FromExact(clauses, c + 1);
      SeqExact(ExecSeq(clauses[c].statements), ExecFrom(clauses, c + 1), ReachSeq(clauses[c].statements), ReachFrom(clauses, c + 1));
    }
  }

  lemma {:induction false} AnyExact(clauses: seq<Clause>, n: nat)
    requires n <= |clauses|
    ensures ExactOrNone(ExecAny(clauses, n), ReachAny(clauses, n))
    decreases clauses, 1, n
  {
    if n > 0 {
      AnyExact(clauses, n - 1);
      var c := n - 1;
      TestsExact(clauses, TestsBefore(clauses, c));
      FromExact(clauses, c);
      hide Exact, ExecTests, ReachTests, ExecFrom, ReachFrom, Seq, QSeq;
      SeqExact(ExecTests(clauses, TestsBefore(clauses, c)), ExecFrom(clauses, c), ReachTests(clauses, TestsBefore(clauses, c)), ReachFrom(clauses, c));
      OrNone(ExecAny(clauses, c), ExecClause(clauses, c), ReachAny(clauses, c), ReachClause(clauses, c));
    }
  }

  lemma SelectedExact(clauses: seq<Clause>)
    ensures Exact(ExecSelected(clauses), ReachSelected(clauses))
    decreases clauses, 2
  {
    var n := |clauses|;
    TestsExact(clauses, n);
    AnyExact(clauses, n);
    hide Exact, ExecTests, ReachTests, ExecAny, ReachAny, HasDefault, Seq, QSeq, Cut, Done, ExactOrNone;
    var unmatched: Runs := if HasDefault(clauses) then iset{} else Done();
    var quiet := if HasDefault(clauses) then NEVER else QDONE;
    UnmatchedExact(HasDefault(clauses));
    OrNone(unmatched, Cut(), quiet, QCUT);
    SeqExact(ExecTests(clauses, n), Cut() + unmatched, ReachTests(clauses, n), Both(QCUT, quiet));
    OrNone(ExecAny(clauses, n), Seq(ExecTests(clauses, n), Cut() + unmatched), ReachAny(clauses, n), QSeq(ReachTests(clauses, n), Both(QCUT, quiet)));
  }

  lemma UnmatchedExact(covered: bool)
    ensures ExactOrNone(if covered then iset{} else Done(), if covered then NEVER else QDONE)
    ensures Exact(Cut(), QCUT)
  {
    hide Exact, Cut, Done;
    DoneExact();
    CutExact();
  }
}
