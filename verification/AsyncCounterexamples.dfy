/** Bodies on which the async control-flow analysis (internal/typefacts/tsgo/async_flow.go:339-509)
reports a call that no await precedes, one for each construct `Structured` restrains. */
module AsyncCounterexamples {
  import opened SortedRows
  import opened AsyncFlows
  import opened AsyncSemantics
  import opened AsyncReaches
  import opened AsyncStructures
  import opened AsyncSwitches
  import opened AsyncTheorems

  const AFTER := State(true, true)

  /** Something without an await, a call or a jump. */
  const NOTHING := Plain([])

  const CALL := Call(0, [])

  const AWAIT := Await([])

  lemma NothingReaches()
    ensures Normal in Reach(NOTHING).outcomes
    ensures forall state: State :: Flow(NOTHING, state) == Scan(state, [])
  {
    SeqParts(ReachSeq([]), Both(QDONE, QCUT));
  }

  lemma CallReaches()
    ensures 0 in Reach(CALL).sites
    ensures Flow(CALL, AFTER) == Scan(AFTER, [0])
  {
    SeqParts(ReachSeq([]), QCall(0));
  }

  lemma AwaitFlows(state: State)
    requires state.reachable
    ensures Flow(AWAIT, state) == Scan(AFTER, [])
  {
  }

  lemma OneCall(body: Node)
    requires 0 in ReportedCalls(body) && 0 in Reach(body).sites
    ensures Misreports(body)
  {
    hide Reach, ReportedCalls, Misreports;
    MisreportsIff(body);
  }

  /** First a part that may pass without an await though the scan says otherwise, then the call. */
  lemma PartThenCall(part: Node)
    requires Normal in Reach(part).outcomes && Flow(part, START).state == AFTER
    ensures Misreports(Plain([part, CALL]))
  {
    var nodes := [part, CALL];
    assert nodes[1..] == [CALL] && [CALL][1..] == [];
    CallReaches();
    TwoReach(part, CALL);
    TwoFlow(part, CALL);
    hide Reach, Flow, Misreports;
    OneCall(Plain(nodes));
  }

  lemma TwoReach(first: Node, second: Node)
    requires Normal in Reach(first).outcomes
    ensures Reach(second).sites <= Reach(Plain([first, second])).sites
  {
    hide Reach, QSeq;
    var nodes := [first, second];
    SeqReach(first, [second]);
    SeqReach(second, []);
    assert [first] + [second] == nodes && [second] + [] == [second];
    SeqParts(Reach(first), ReachSeq([second]));
    SeqParts(Reach(second), ReachSeq([]));
    SeqParts(ReachSeq(nodes), Both(QDONE, QCUT));
    PlainReach(nodes);
    hide ReachSeq;
  }

  lemma SeqReach(first: Node, rest: seq<Node>)
    ensures ReachSeq([first] + rest) == QSeq(Reach(first), ReachSeq(rest))
  {
    hide Reach, QSeq;
    assert ([first] + rest)[1..] == rest;
  }

  lemma PlainReach(nodes: seq<Node>)
    ensures Reach(Plain(nodes)) == Both(QCUT, QSeq(ReachSeq(nodes), Both(QDONE, QCUT)))
  {
    hide ReachSeq, QSeq;
  }

  lemma TwoFlow(first: Node, second: Node)
    requires Flow(first, START).state == AFTER && 0 in Flow(second, AFTER).calls
    ensures 0 in ReportedCalls(Plain([first, second]))
  {
    Unfolds(Plain([first, second]), START);
    hide Flow;
    SeqUnfolds([first, second], START);
    SeqUnfolds([second], AFTER);
    assert [first, second][1..] == [second];
  }

  /** `try { await x } finally { f() }`: the awaited value is rejected. */
  lemma FinallyMisreports()
    ensures Misreports(Try(AWAIT, None, Some(CALL)))
  {
    var body := Try(AWAIT, None, Some(CALL));
    CallReaches();
    FinalReaches(Reach(AWAIT), Reach(CALL), 0);
    TryReach(body);
    hide *;
    FinallyReports(body);
    OneCall(body);
  }

  lemma FinallyReports(body: Node)
    requires body == Try(AWAIT, None, Some(CALL))
    ensures 0 in ReportedCalls(body)
  {
    CallReaches();
    AwaitFlows(START);
    Unfolds(body, START);
    hide Flow, Reach;
  }

  lemma TryReach(body: Node)
    requires body.Try? && body.handler.None? && body.finalizer.Some?
    ensures QBind(Reach(body.block), QOnFinal(Reach(body.finalizer.value))).sites <= Reach(body).sites
    ensures Threw in Reach(body.block).outcomes
  {
    hide ReachNode, QBind;
    assert ReachNode(body) == QBind(Reach(body.block), QOnFinal(Reach(body.finalizer.value))) by { TryNode(body); }
  }

  lemma TryNode(body: Node)
    requires body.Try? && body.handler.None? && body.finalizer.Some?
    ensures ReachNode(body) == QBind(Reach(body.block), QOnFinal(Reach(body.finalizer.value)))
  {
    hide Reach, QBind;
  }

  lemma FinalReaches(p: Quiet, q: Quiet, s: nat)
    requires s in q.sites
    ensures Threw in p.outcomes ==> s in QBind(p, QOnFinal(q)).sites
  {
    assert s in QOnFinal(q)(Threw).sites;
  }

  /** `for (;; await x) f()`: the incrementor is scanned before the body and runs after it. */
  lemma IncrementorMisreports()
    ensures Misreports(Loop(For, NOTHING, NOTHING, AWAIT, CALL))
  {
    var body := Loop(For, NOTHING, NOTHING, AWAIT, CALL);
    CallReaches();
    NothingReaches();
    hide *;
    ForReaches(body);
    IncrementorReports(body);
    OneCall(body);
  }

  lemma IncrementorReports(body: Node)
    requires body == Loop(For, NOTHING, NOTHING, AWAIT, CALL)
    ensures 0 in ReportedCalls(body)
  {
    CallReaches();
    NothingReaches();
    AwaitFlows(START);
    Unfolds(body, START);
    hide Flow, Reach;
  }

  lemma ForReaches(body: Node)
    requires body.Loop? && body.kind == For && Normal in Reach(body.head).outcomes && Normal in Reach(body.condition).outcomes
    ensures Reach(body.body).sites <= Reach(body).sites
  {
    var rest := QBind(Reach(body.body), QOnBody(QSeq(Reach(body.step), NEVER)));
    SeqParts(Reach(body.head), QSeq(Reach(body.condition), Both(QDONE, rest)));
    SeqParts(Reach(body.condition), Both(QDONE, rest));
    hide QSeq, QOnBody;
    LoopReach(body);
  }

  lemma LoopReach(body: Node)
    requires body.Loop?
    ensures Reach(body) == Both(QCUT, ReachLoop(QParts(body.kind, Reach(body.head), Reach(body.condition), Reach(body.step), Reach(body.body))))
  {
    hide ReachLoop;
  }

  /** `for (const { a = await x } of f()) {}`: the target is scanned before the iterated
  expression and runs after it. */
  lemma TargetMisreports()
    ensures Misreports(Loop(ForEach, AWAIT, CALL, NOTHING, NOTHING))
  {
    var body := Loop(ForEach, AWAIT, CALL, NOTHING, NOTHING);
    CallReaches();
    hide *;
    EachReaches(body);
    TargetReports(body);
    OneCall(body);
  }

  lemma TargetReports(body: Node)
    requires body == Loop(ForEach, AWAIT, CALL, NOTHING, NOTHING)
    ensures 0 in ReportedCalls(body)
  {
    CallReaches();
    AwaitFlows(START);
    Unfolds(body, START);
    hide Flow, Reach;
  }

  lemma EachReaches(body: Node)
    requires body.Loop? && body.kind == ForEach
    ensures Reach(body.condition).sites <= Reach(body).sites
  {
    hide QSeq;
    LoopReach(body);
    SeqParts(Reach(body.condition), Both(QDONE, QSeq(Reach(body.head), QBind(Reach(body.body), QOnBody(NEVER)))));
    hide Reach, QBind;
  }

  /** `if (c) <jump>; await x`: the jump skips the await. */
  function JumpOrAwait(jump: Node): Node {
    Plain([Branch(NOTHING, jump, NOTHING), AWAIT])
  }

  lemma JumpReaches(jump: Node, outcome: Outcome)
    requires outcome in Reach(jump).outcomes && outcome != Normal
    ensures outcome in Reach(JumpOrAwait(jump)).outcomes
  {
    NothingReaches();
    var branch := Branch(NOTHING, jump, NOTHING);
    BranchReaches(branch, outcome);
    var nodes := [branch, AWAIT];
    PlainReach(nodes);
    EndsFirst(Reach(branch), ReachSeq(nodes[1..]), outcome);
    EndsFirst(ReachSeq(nodes), Both(QDONE, QCUT), outcome);
    hide Reach, QSeq;
  }

  lemma BranchReaches(branch: Node, outcome: Outcome)
    requires branch.Branch? && Normal in Reach(branch.condition).outcomes && outcome in Reach(branch.whenTrue).outcomes
    ensures outcome in Reach(branch).outcomes
  {
    var p, q := Reach(branch.condition), Both(Reach(branch.whenTrue), Reach(branch.whenFalse));
    assert outcome in QOnNormal(q)(Normal).outcomes;
    assert outcome in QSeq(p, q).outcomes;
    hide QSeq;
    assert ReachNode(branch) == QSeq(p, q);
  }

  lemma EndsFirst(p: Quiet, q: Quiet, outcome: Outcome)
    requires outcome in p.outcomes && outcome != Normal
    ensures outcome in QSeq(p, q).outcomes
  {
    assert outcome in QOnNormal(q)(outcome).outcomes;
  }

  lemma JumpFlows(jump: Node)
    requires jump.Break? || jump.Continue? || jump.JumpTo?
    ensures Flow(JumpOrAwait(jump), START) == Scan(AFTER, [])
  {
    var branch := Branch(NOTHING, jump, NOTHING);
    BranchFlows(jump);
    AwaitFlows(START);
    hide Flow, FlowSeq;
    Unfolds(JumpOrAwait(jump), START);
    SeqUnfolds([branch, AWAIT], START);
    SeqUnfolds([AWAIT], START);
    SeqUnfolds([], AFTER);
    assert [branch, AWAIT][1..] == [AWAIT] && [AWAIT][1..] == [];
  }

  lemma BranchFlows(jump: Node)
    requires jump.Break? || jump.Continue? || jump.JumpTo?
    ensures Flow(Branch(NOTHING, jump, NOTHING), START) == Scan(START, [])
  {
    NothingReaches();
    hide Flow, Reach;
    Unfolds(Branch(NOTHING, jump, NOTHING), START);
    Unfolds(jump, START);
  }

  /** `do { if (c) continue; await x } while (f())`. */
  lemma DoContinueMisreports()
    ensures Misreports(Loop(DoWhile, NOTHING, CALL, NOTHING, JumpOrAwait(Continue)))
  {
    var body := Loop(DoWhile, NOTHING, CALL, NOTHING, JumpOrAwait(Continue));
    CallReaches();
    assert Continued in Reach(Continue).outcomes;
    hide *;
    JumpReaches(Continue, Continued);
    DoReaches(body);
    DoReports(body);
    OneCall(body);
  }

  lemma DoReports(body: Node)
    requires body == Loop(DoWhile, NOTHING, CALL, NOTHING, JumpOrAwait(Continue))
    ensures 0 in ReportedCalls(body)
  {
    CallReaches();
    JumpFlows(Continue);
    Unfolds(body, START);
    hide Flow, Reach;
  }

  lemma DoReaches(body: Node)
    requires body.Loop? && body.kind == DoWhile && Continued in Reach(body.body).outcomes
    ensures Reach(body.condition).sites <= Reach(body).sites
  {
    var test := QSeq(Reach(body.condition), Both(QDONE, NEVER));
    SeqParts(Reach(body.condition), Both(QDONE, NEVER));
    DoUnfolds(body);
    hide Reach, QSeq, QBind, QOnBody;
    ContinuedGoesOn(Reach(body.body), test);
  }

  lemma DoUnfolds(body: Node)
    requires body.Loop? && body.kind == DoWhile
    ensures Reach(body) == Both(QCUT, QBind(Reach(body.body), QOnBody(QSeq(Reach(body.condition), Both(QDONE, NEVER)))))
  {
    LoopReach(body);
    hide Reach, QSeq, QBind, QOnBody, Both;
  }

  lemma ContinuedGoesOn(p: Quiet, q: Quiet)
    requires Continued in p.outcomes
    ensures q.sites <= QBind(p, QOnBody(q)).sites
  {
    assert forall s :: s in q.sites ==> s in QOnBody(q)(Continued).sites;
  }

  /** A switch whose only clause is a default with one statement. */
  function DefaultSwitch(statement: Node): Node {
    Switch(NOTHING, [Clause(None, [statement])])
  }

  lemma DefaultReaches(statement: Node)
    requires Broke in Reach(statement).outcomes
    ensures Normal in Reach(DefaultSwitch(statement)).outcomes
  {
    var clauses := [Clause(None, [statement])];
    NothingReaches();
    hide Reach;
    SelectedBroke(statement, clauses);
    hide ReachSelected;
    SeqBroke(Reach(NOTHING), ReachSelected(clauses));
    CaughtParts(QSeq(Reach(NOTHING), ReachSelected(clauses)), Broke, QDONE);
    SwitchNode(NOTHING, clauses);
  }

  lemma SwitchNode(subject: Node, clauses: seq<Clause>)
    ensures Reach(Switch(subject, clauses))
         == Both(QCUT, QBind(QSeq(Reach(subject), ReachSelected(clauses)), QOnCaught(Broke, QDONE)))
  {
    hide ReachSelected, QSeq, QBind;
  }

  lemma SelectedBroke(statement: Node, clauses: seq<Clause>)
    requires clauses == [Clause(None, [statement])] && Broke in Reach(statement).outcomes
    ensures Broke in ReachSelected(clauses).outcomes
  {
    OneClause(statement, clauses);
    SeqReach(statement, []);
    assert [statement] + [] == [statement];
    hide Reach, QSeq, ReachSelected, ReachSeq;
    SeqBroke(Reach(statement), ReachSeq([]));
    SeqBroke(ReachSeq([statement]), QDONE);
    SeqBroke(QDONE, QSeq(ReachSeq([statement]), QDONE));
  }

  lemma OneClause(statement: Node, clauses: seq<Clause>)
    requires clauses == [Clause(None, [statement])]
    ensures QSeq(QDONE, QSeq(ReachSeq([statement]), QDONE)).outcomes <= ReachSelected(clauses).outcomes
  {
    hide ReachSeq, QSeq;
    assert ReachTests(clauses, 0) == QDONE && ReachTests(clauses, 1) == QDONE;
    assert ReachFrom(clauses, 1) == QDONE;
    assert ReachClause(clauses, 0) == QSeq(QDONE, QSeq(ReachSeq([statement]), QDONE));
    assert ReachAny(clauses, 1) == Both(ReachAny(clauses, 0), ReachClause(clauses, 0));
  }

  lemma DefaultFlows(statement: Node, after: State)
    requires !IsBreak(statement) && after.reachable && Flow(statement, START) == Scan(after, [])
    ensures Flow(DefaultSwitch(statement), START).state == after
  {
    var clauses := [Clause(None, [statement])];
    NothingReaches();
    Unfolds(DefaultSwitch(statement), START);
    hide Flow, FlowClauses, Reach;
    DefaultClauseFlows(statement, after, clauses);
    assert clauses[0].test.None?;
    assert HasDefault(clauses);
    assert SwitchExits(clauses, ClauseScan([], Some(after), []), START) == [after];
    assert MergeAll([after], START) == after by { assert [after][1..] == []; }
  }

  lemma DefaultClauseFlows(statement: Node, after: State, clauses: seq<Clause>)
    requires !IsBreak(statement) && after.reachable && Flow(statement, START) == Scan(after, [])
    requires clauses == [Clause(None, [statement])]
    ensures FlowClauses(clauses, START, None) == ClauseScan([], Some(after), [])
  {
    hide Flow, FlowClauses, FlowBody, Reach, ReachSeq;
    ClausesUnfold(clauses, START, None);
    ClausesUnfold([], START, Some(after));
    BodyUnfolds([statement], START);
    BodyUnfolds([], after);
    assert [statement][1..] == [] && clauses[1..] == [];
  }

  /** `switch (v) { default: { if (c) break; await x } } f()`. */
  lemma NestedBreakMisreports()
    ensures Misreports(Plain([DefaultSwitch(JumpOrAwait(Break)), CALL]))
  {
    assert Broke in Reach(Break).outcomes;
    hide *;
    JumpReaches(Break, Broke);
    JumpFlows(Break);
    assert !IsBreak(JumpOrAwait(Break)) by { NotBreak(Break); }
    DefaultReaches(JumpOrAwait(Break));
    DefaultFlows(JumpOrAwait(Break), AFTER);
    PartThenCall(DefaultSwitch(JumpOrAwait(Break)));
  }

  lemma NotBreak(jump: Node)
    ensures !IsBreak(JumpOrAwait(jump))
  {
  }

  /** `l: { if (c) break l; await x } f()`. */
  lemma LabelMisreports()
    ensures Misreports(Plain([Labelled(1, JumpOrAwait(JumpTo(1, true))), CALL]))
  {
    var part := Labelled(1, JumpOrAwait(JumpTo(1, true)));
    assert BrokeOut(1) in Reach(JumpTo(1, true)).outcomes;
    hide *;
    JumpReaches(JumpTo(1, true), BrokeOut(1));
    LabelReaches(part);
    JumpFlows(JumpTo(1, true));
    LabelFlows(part);
    PartThenCall(part);
  }

  lemma LabelReaches(part: Node)
    requires part.Labelled? && BrokeOut(part.name) in Reach(part.body).outcomes
    ensures Normal in Reach(part).outcomes
  {
    CaughtParts(Reach(part.body), BrokeOut(part.name), QDONE);
    LabelledNode(part);
    hide Reach, QBind;
  }

  lemma LabelFlows(part: Node)
    requires part.Labelled?
    ensures Flow(part, START) == Flow(part.body, START)
  {
    Unfolds(part, START);
    hide Flow;
  }

  lemma LabelledNode(node: Node)
    requires node.Labelled?
    ensures Reach(node) == Both(QCUT, QBind(Reach(node.body), QOnCaught(BrokeOut(node.name), QDONE)))
  {
    hide QBind;
  }

  /** `a ||= await x; f()`. */
  lemma LogicalAssignMisreports()
    ensures Misreports(Plain([LogicalAssign(NOTHING, AWAIT), CALL]))
  {
    var part := LogicalAssign(NOTHING, AWAIT);
    NothingReaches();
    AwaitFlows(START);
    Unfolds(part, START);
    SeqParts(Reach(NOTHING), Both(QDONE, Reach(AWAIT)));
    assert ReachNode(part) == QSeq(Reach(NOTHING), Both(QDONE, Reach(AWAIT)));
    hide ReachNode, Flow;
    PartThenCall(part);
  }

  /** `a?.(await x); f()` with a site, `a?.[await x]; f()` without. */
  lemma OptionalLinkMisreports(site: Option<nat>)
    ensures Misreports(Plain([Chain(NOTHING, [Link(true, site, [AWAIT])]), CALL]))
  {
    var links := [Link(true, site, [AWAIT])];
    NothingReaches();
    hide *;
    ChainReaches(Chain(NOTHING, links));
    ChainFlows(links, site);
    PartThenCall(Chain(NOTHING, links));
  }

  lemma ChainReaches(part: Node)
    requires part.Chain? && part.links != [] && part.links[0].optional && Normal in Reach(part.head).outcomes
    ensures Normal in Reach(part).outcomes
  {
    hide Reach, QSeq;
    SeqParts(Reach(part.head), ReachLinks(part.links));
    ChainNode(part);
  }

  lemma ChainNode(part: Node)
    requires part.Chain?
    ensures Reach(part) == Both(QCUT, QSeq(Reach(part.head), ReachLinks(part.links)))
  {
    hide ReachLinks, QSeq;
  }

  lemma ChainFlows(links: seq<Link>, site: Option<nat>)
    requires links == [Link(true, site, [AWAIT])]
    ensures Flow(Chain(NOTHING, links), START).state == AFTER
  {
    NothingReaches();
    AwaitFlows(START);
    Unfolds(Chain(NOTHING, links), START);
    hide Flow, Reach, FlowLinks, FlowSeq;
    LinksUnfold(links, START);
    SeqUnfolds([AWAIT], START);
    SeqUnfolds([], AFTER);
    LinksUnfold([], AFTER);
    assert [AWAIT][1..] == [] && links[1..] == [];
  }

  /** `const { a = await x } = f()`: the default is scanned before the initializer and runs after it. */
  lemma DeclarationMisreports()
    ensures Misreports(Declare(Default(AWAIT), CALL))
  {
    var body := Declare(Default(AWAIT), CALL);
    CallReaches();
    AwaitFlows(START);
    Unfolds(Default(AWAIT), START);
    Unfolds(body, START);
    SeqParts(Reach(CALL), Reach(Default(AWAIT)));
    assert ReachNode(body) == QSeq(Reach(CALL), Reach(Default(AWAIT)));
    hide ReachNode, Flow;
    OneCall(body);
  }

  /** `const { a = await x } = o; f()`: the default is skipped when `o.a` is there. */
  lemma DefaultMisreports()
    ensures Misreports(Plain([Declare(Default(AWAIT), NOTHING), CALL]))
  {
    var part := Declare(Default(AWAIT), NOTHING);
    NothingReaches();
    AwaitFlows(START);
    Unfolds(Default(AWAIT), START);
    Unfolds(part, START);
    assert Normal in Reach(Default(AWAIT)).outcomes;
    SeqParts(Reach(NOTHING), Reach(Default(AWAIT)));
    assert ReachNode(part) == QSeq(Reach(NOTHING), Reach(Default(AWAIT)));
    hide ReachNode, Flow;
    PartThenCall(part);
  }

  /** `if (c) { o = { get v() { return 1 } } } else { await x } f()`: the getter's `return` makes
  the first branch unreachable for the scan. */
  lemma InlineReturnMisreports()
    ensures Misreports(Plain([Branch(NOTHING, Inline([Exit([])]), AWAIT), CALL]))
  {
    var getter := Inline([Exit([])]);
    var part := Branch(NOTHING, getter, AWAIT);
    NothingReaches();
    assert Normal in Reach(getter).outcomes;
    hide Reach, Flow, Misreports;
    BranchReaches(part, Normal);
    GetterFlows();
    AwaitFlows(START);
    Unfolds(part, START);
    PartThenCall(part);
  }

  lemma GetterFlows()
    ensures Flow(Inline([Exit([])]), START) == Scan(State(false, false), [])
  {
    Unfolds(Inline([Exit([])]), START);
    Unfolds(Exit([]), START);
    hide Flow;
    SeqUnfolds([Exit([])], START);
    SeqUnfolds([], START);
    SeqUnfolds([], State(false, false));
    assert [Exit([])][1..] == [];
  }
}
