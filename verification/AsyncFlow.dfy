/** The async control-flow analysis (internal/typefacts/tsgo/async_flow.go:339-509).

`Flow` is what one scan does to the state and what it reports; the scanner below is the
source's recursive walk with its mutable state and its growing list of calls. */
module AsyncFlows {
  import opened SortedRows

  /** How a loop's children are ordered in the tree. */
  datatype LoopKind = While | DoWhile | For | ForEach

  /** A clause of a switch; the default clause has no test. */
  datatype Clause = Clause(test: Option<Node>, statements: seq<Node>)

  /** A link of a member or call chain: `?.` marks it optional, a call has a site, and the
  arguments are what it evaluates itself, an index included. */
  datatype Link = Link(optional: bool, site: Option<nat>, arguments: seq<Node>)

  /** A syntax tree up to what the analysis distinguishes.

  `Plain` is a block or another node whose children are evaluated once each, in tree order; an
  `if` without `else` branches to `Plain([])`. In a `ForEach`, `head` is the target and
  `condition` the iterated expression. `Declare` is a declaration or destructuring assignment,
  whose target comes first in the tree and last in evaluation; `Default` is a default
  initializer; `Chain` is a chain with an optional link; `Inline` is a getter, setter,
  constructor or instance initializer written inside the body. `JumpTo` leaves the statement with its
  label: `break l`, or `continue l` with the label on the loop's body. A call's `site` identifies it. */
  datatype Node =
    | Plain(children: seq<Node>)
    | Await(children: seq<Node>)
    | Call(site: nat, children: seq<Node>)
    | Exit(children: seq<Node>)
    | Branch(condition: Node, whenTrue: Node, whenFalse: Node)
    | ShortCircuit(left: Node, right: Node)
    | Loop(kind: LoopKind, head: Node, condition: Node, step: Node, body: Node)
    | Switch(subject: Node, clauses: seq<Clause>)
    | Try(block: Node, handler: Option<Node>, finalizer: Option<Node>)
    | Break
    | Continue
    | Nested
    | Inline(children: seq<Node>)
    | Labelled(name: nat, body: Node)
    | JumpTo(name: nat, breaks: bool)
    | LogicalAssign(left: Node, right: Node)
    | Declare(target: Node, initializer: Node)
    | Default(value: Node)
    | Chain(head: Node, links: seq<Link>)

  datatype State = State(awaited: bool, reachable: bool)

  datatype Scan = Scan(state: State, calls: seq<nat>)

  /** `mergeAsyncBranches`. */
  function Merge(left: State, right: State): State {
    if !left.reachable then right
    else if !right.reachable then left
    else State(left.awaited && right.awaited, true)
  }

  function Then(first: Scan, second: Scan): Scan {
    Scan(second.state, first.calls + second.calls)
  }

  /** One `scanAsyncFlow` call. */
  function Flow(node: Node, state: State): Scan
    decreases node
  {
    if !state.reachable then Scan(state, [])
    else
      match node
      case Plain(children) => FlowSeq(children, state)
      case Await(children) =>
        var scan := FlowSeq(children, state);
        Scan(State(true, scan.state.reachable), scan.calls)
      case Call(site, children) =>
        var scan := FlowSeq(children, state);
        Scan(scan.state, (if state.awaited then [site] else []) + scan.calls)
      case Exit(children) =>
        var scan := FlowSeq(children, state);
        Scan(State(scan.state.awaited, false), scan.calls)
      case Branch(_, _, _) => FlowBranch(node, state)
      case ShortCircuit(_, _) => FlowBranch(node, state)
      case Loop(_, _, _, _, _) => Scan(state, FlowLoop(node, state).calls)
      case Switch(_, _) => FlowSwitch(node, state)
      case Try(_, _, _) => FlowTry(node, state)
      case Break => Scan(state, [])
      case Continue => Scan(state, [])
      case Nested => Scan(state, [])
      case Inline(children) => FlowSeq(children, state)
      case Labelled(_, body) => Flow(body, state)
      case JumpTo(_, _) => Scan(state, [])
      case LogicalAssign(left, right) => Then(Flow(left, state), Flow(right, Flow(left, state).state))
      case Declare(target, initializer) => Then(Flow(target, state), Flow(initializer, Flow(target, state).state))
      case Default(value) => Flow(value, state)
      case Chain(head, links) =>
        var scan := Then(Flow(head, state), FlowLinks(links, Flow(head, state).state));
        Scan(scan.state, (if state.awaited then LinkSites(links) else []) + scan.calls)
  }

  /** The sites of a chain, the outermost call first. */
  function LinkSites(links: seq<Link>): seq<nat> {
    if links == [] then [] else LinkSites(links[1..]) + (if links[0].site.Some? then [links[0].site.value] else [])
  }

  function FlowLinks(links: seq<Link>, state: State): Scan
    decreases links
  {
    if links == [] then Scan(state, [])
    else Then(FlowSeq(links[0].arguments, state), FlowLinks(links[1..], FlowSeq(links[0].arguments, state).state))
  }

  /** Two branches of which one is taken, or a right operand that may be skipped. */
  function FlowBranch(node: Node, state: State): Scan
    requires node.Branch? || node.ShortCircuit?
    decreases node, 0
  {
    if node.Branch? then
      var first := Flow(node.condition, state);
      var yes := Flow(node.whenTrue, first.state);
      var no := Flow(node.whenFalse, first.state);
      Scan(Merge(yes.state, no.state), first.calls + yes.calls + no.calls)
    else
      var first := Flow(node.left, state);
      var second := Flow(node.right, first.state);
      Scan(Merge(first.state, second.state), first.calls + second.calls)
  }

  /** A loop's children, scanned once in tree order. */
  function FlowLoop(node: Node, state: State): Scan
    requires node.Loop?
    decreases node, 0
  {
    match node.kind
    case While =>
      var a := Flow(node.condition, state);
      Then(a, Flow(node.body, a.state))
    case DoWhile =>
      var a := Flow(node.body, state);
      Then(a, Flow(node.condition, a.state))
    case For =>
      var a := Flow(node.head, state);
      var b := Then(a, Flow(node.condition, a.state));
      var c := Then(b, Flow(node.step, b.state));
      Then(c, Flow(node.body, c.state))
    case ForEach =>
      var a := Flow(node.head, state);
      var b := Then(a, Flow(node.condition, a.state));
      Then(b, Flow(node.body, b.state))
  }

  function FlowSwitch(node: Node, state: State): Scan
    requires node.Switch?
    decreases node, 0
  {
    var first := Flow(node.subject, state);
    var scan := FlowClauses(node.clauses, first.state, None);
    Scan(MergeAll(SwitchExits(node.clauses, scan, first.state), first.state), first.calls + scan.calls)
  }

  /** Breaks, the last clause's end, and the subject itself when nothing need match. */
  function SwitchExits(clauses: seq<Clause>, scan: ClauseScan, entry: State): seq<State> {
    scan.exits + (if scan.through.Some? then [scan.through.value] else []) + (if HasDefault(clauses) then [] else [entry])
  }

  function FlowTry(node: Node, state: State): Scan
    requires node.Try?
    decreases node, 0
  {
    var tried := Flow(node.block, state);
    var caught := if node.handler.Some? then Flow(node.handler.value, state) else Scan(tried.state, []);
    var merged := Scan(Merge(tried.state, caught.state), tried.calls + caught.calls);
    if node.finalizer.Some? then Then(merged, Flow(node.finalizer.value, merged.state)) else merged
  }

  function FlowSeq(nodes: seq<Node>, state: State): Scan
    decreases nodes
  {
    if nodes == [] then Scan(state, []) else Then(Flow(nodes[0], state), FlowSeq(nodes[1..], Flow(nodes[0], state).state))
  }

  datatype ClauseScan = ClauseScan(exits: seq<State>, through: Option<State>, calls: seq<nat>)

  datatype BodyScan = BodyScan(state: State, broke: bool, calls: seq<nat>)

  /** `ast.IsBreakStatement`: with or without a label. */
  predicate IsBreak(node: Node) {
    node.Break? || (node.JumpTo? && node.breaks)
  }

  /** A clause's statements, up to a direct `break` or an unreachable point. */
  function FlowBody(statements: seq<Node>, state: State): BodyScan
    decreases statements
  {
    if statements == [] then BodyScan(state, false, [])
    else if IsBreak(statements[0]) then BodyScan(state, true, [])
    else
      var first := Flow(statements[0], state);
      if !first.state.reachable then BodyScan(first.state, false, first.calls)
      else
        var rest := FlowBody(statements[1..], first.state);
        BodyScan(rest.state, rest.broke, first.calls + rest.calls)
  }

  /** The state a clause is entered with: matched, or fallen into. */
  function ClauseEntry(entry: State, through: Option<State>): State {
    if through.Some? then Merge(entry, through.value) else entry
  }

  function FlowClauses(clauses: seq<Clause>, entry: State, through: Option<State>): ClauseScan
    decreases clauses
  {
    if clauses == [] then ClauseScan([], through, [])
    else
      var clause := clauses[0];
      var tested := if clause.test.Some? then Flow(clause.test.value, entry).calls else [];
      var body := FlowBody(clause.statements, ClauseEntry(entry, through));
      var next := if body.broke || !body.state.reachable then None else Some(body.state);
      var rest := FlowClauses(clauses[1..], entry, next);
      ClauseScan((if body.broke then [body.state] else []) + rest.exits, rest.through, tested + body.calls + rest.calls)
  }

  function HasDefault(clauses: seq<Clause>): bool {
    exists k :: 0 <= k < |clauses| && clauses[k].test.None?
  }

  /** The exits merged left to right; without any, nothing is reached. */
  function MergeAll(exits: seq<State>, entry: State): State {
    if exits == [] then State(entry.awaited, false) else MergeFrom(exits[0], exits[1..])
  }

  function MergeFrom(merged: State, exits: seq<State>): State
    decreases |exits|
  {
    if exits == [] then merged else MergeFrom(Merge(merged, exits[0]), exits[1..])
  }

  lemma {:induction false} MergeFromSnoc(merged: State, exits: seq<State>, last: State)
    ensures MergeFrom(merged, exits + [last]) == Merge(MergeFrom(merged, exits), last)
    decreases |exits|
  {
    if exits == [] {
      assert [] + [last] == [last] && [last][1..] == [];
    } else {
      assert (exits + [last])[1..] == exits[1..] + [last];
      MergeFromSnoc(Merge(merged, exits[0]), exits[1..], last);
    }
  }

  // --- the scanner ---

  /** The mutable flow state a scan is handed. */
  class FlowCell {
    var awaited: bool
    var reachable: bool

    constructor (state: State)
      ensures Value() == state
    {
      awaited, reachable := state.awaited, state.reachable;
    }

    function Value(): State
      reads this
    {
      State(awaited, reachable)
    }

    method Set(state: State)
      modifies this
      ensures Value() == state
    {
      awaited, reachable := state.awaited, state.reachable;
    }
  }

  /** The scan of one function: the calls reported so far. */
  class AsyncScanner {
    var calls: seq<nat>

    constructor ()
      ensures calls == []
    {
      calls := [];
    }

    /** A child scanned on a copy of the state. */
    method ScanCopy(node: Node, state: State) returns (next: State)
      modifies this
      ensures next == Flow(node, state).state && calls == old(calls) + Flow(node, state).calls
      decreases node, 3
    {
      hide *;
      var cell := new FlowCell(state);
      Scan(node, cell);
      next := cell.Value();
    }

    /** The children in order; a child of an unreachable state is not entered. */
    method ScanSeq(nodes: seq<Node>, state: FlowCell)
      modifies this, state
      ensures state.Value() == FlowSeq(nodes, old(state.Value())).state
      ensures calls == old(calls) + FlowSeq(nodes, old(state.Value())).calls
      decreases nodes
    {
      SeqUnfolds(nodes, state.Value());
      hide Flow, FlowSeq;
      if nodes != [] {
        Scan(nodes[0], state);
        ScanSeq(nodes[1..], state);
      }
    }

    /** `scanAsyncFlow`. */
    method Scan(node: Node, state: FlowCell)
      modifies this, state
      ensures state.Value() == Flow(node, old(state.Value())).state
      ensures calls == old(calls) + Flow(node, old(state.Value())).calls
      decreases node, 2
    {
      Unfolds(node, state.Value());
      hide Flow, FlowSeq, FlowBranch, FlowLoop, FlowSwitch, FlowTry;
      if !state.reachable { return; }
      if node.Branch? || node.ShortCircuit? {
        ScanBranch(node, state);
      } else if node.Switch? {
        ScanSwitch(node, state);
      } else if node.Try? {
        ScanTry(node, state);
      } else if node.Loop? {
        ScanLoop(node, state);
      } else {
        ScanPlain(node, state);
      }
    }

    /** A chain's links, from the innermost out. */
    method ScanLinks(links: seq<Link>, state: FlowCell)
      modifies this, state
      ensures state.Value() == FlowLinks(links, old(state.Value())).state
      ensures calls == old(calls) + FlowLinks(links, old(state.Value())).calls
      decreases links
    {
      LinksUnfold(links, state.Value());
      hide FlowSeq, FlowLinks;
      if links != [] {
        ScanSeq(links[0].arguments, state);
        ScanLinks(links[1..], state);
      }
    }

    /** Nodes whose children are scanned in tree order. */
    method ScanPlain(node: Node, state: FlowCell)
      requires state.reachable && !(node.Branch? || node.ShortCircuit? || node.Switch? || node.Try? || node.Loop?)
      modifies this, state
      ensures state.Value() == Flow(node, old(state.Value())).state
      ensures calls == old(calls) + Flow(node, old(state.Value())).calls
      decreases node, 1
    {
      Unfolds(node, state.Value());
      hide Flow, FlowSeq, FlowLinks, LinkSites;
      if node.Plain? || node.Await? || node.Call? || node.Exit? || node.Inline? {
        ScanChildren(node, state);
      } else {
        match node {
          case Labelled(_, body) =>
            Scan(body, state);
          case LogicalAssign(left, right) =>
            ScanPair(node, left, right, state);
          case Declare(target, initializer) =>
            ScanPair(node, target, initializer, state);
          case Default(value) =>
            Scan(value, state);
          case Chain(_, _) =>
            ScanChain(node, state);
          case Break =>
          case Continue =>
          case Nested =>
          case JumpTo(_, _) =>
        }
      }
    }

    method ScanPair(ghost node: Node, first: Node, second: Node, state: FlowCell)
      requires (node.LogicalAssign? && first == node.left && second == node.right)
        || (node.Declare? && first == node.target && second == node.initializer)
      modifies this, state
      ensures var scan := Flow(first, old(state.Value()));
        && state.Value() == Flow(second, scan.state).state
        && calls == old(calls) + (scan.calls + Flow(second, scan.state).calls)
      decreases node, 0
    {
      hide Flow;
      Scan(first, state);
      Scan(second, state);
    }

    /** The calls of a chain are visited from the outermost in, before anything they evaluate. */
    method ScanChain(node: Node, state: FlowCell)
      requires state.reachable && node.Chain?
      modifies this, state
      ensures state.Value() == Flow(node, old(state.Value())).state
      ensures calls == old(calls) + Flow(node, old(state.Value())).calls
      decreases node, 0
    {
      Unfolds(node, state.Value());
      hide Flow, FlowSeq, FlowLinks, LinkSites;
      if state.awaited { calls := calls + LinkSites(node.links); }
      Scan(node.head, state);
      ScanLinks(node.links, state);
    }

    method ScanChildren(node: Node, state: FlowCell)
      requires state.reachable && (node.Plain? || node.Await? || node.Call? || node.Exit? || node.Inline?)
      modifies this, state
      ensures state.Value() == Flow(node, old(state.Value())).state
      ensures calls == old(calls) + Flow(node, old(state.Value())).calls
      decreases node, 0
    {
      Unfolds(node, state.Value());
      hide Flow, FlowSeq;
      if node.Call? && state.awaited { calls := calls + [node.site]; }
      ScanSeq(node.children, state);
      if node.Await? { state.awaited := true; }
      if node.Exit? { state.reachable := false; }
    }

    method ScanBranch(node: Node, state: FlowCell)
      requires state.reachable && (node.Branch? || node.ShortCircuit?)
      modifies this, state
      ensures state.Value() == FlowBranch(node, old(state.Value())).state
      ensures calls == old(calls) + FlowBranch(node, old(state.Value())).calls
      decreases node, 1
    {
      hide Flow;
      if node.Branch? {
        Scan(node.condition, state);
        var yes := ScanCopy(node.whenTrue, state.Value());
        var no := ScanCopy(node.whenFalse, state.Value());
        state.Set(Merge(yes, no));
      } else {
        Scan(node.left, state);
        var second := ScanCopy(node.right, state.Value());
        state.Set(Merge(state.Value(), second));
      }
    }

    /** The children are scanned on a copy and the state is left as it was entered. */
    method ScanLoop(node: Node, state: FlowCell)
      requires state.reachable && node.Loop?
      modifies this, state
      ensures state.Value() == old(state.Value())
      ensures calls == old(calls) + FlowLoop(node, old(state.Value())).calls
      decreases node, 1
    {
      hide Flow;
      var entry := state.Value();
      var loopState := new FlowCell(entry);
      match node.kind {
        case While =>
          Scan(node.condition, loopState);
          Scan(node.body, loopState);
        case DoWhile =>
          Scan(node.body, loopState);
          Scan(node.condition, loopState);
        case For =>
          Scan(node.head, loopState);
          Scan(node.condition, loopState);
          Scan(node.step, loopState);
          Scan(node.body, loopState);
        case ForEach =>
          Scan(node.head, loopState);
          Scan(node.condition, loopState);
          Scan(node.body, loopState);
      }
      state.Set(entry);
    }

    method ScanTry(node: Node, state: FlowCell)
      requires state.reachable && node.Try?
      modifies this, state
      ensures state.Value() == FlowTry(node, old(state.Value())).state
      ensures calls == old(calls) + FlowTry(node, old(state.Value())).calls
      decreases node, 1
    {
      hide Flow;
      var entry := state.Value();
      var tried := ScanCopy(node.block, entry);
      var caught := tried;
      if node.handler.Some? { caught := ScanCopy(node.handler.value, entry); }
      state.Set(Merge(tried, caught));
      if node.finalizer.Some? { Scan(node.finalizer.value, state); }
    }

    /** One clause's statements. */
    method ScanBody(statements: seq<Node>, state: FlowCell) returns (broke: bool)
      modifies this, state
      ensures state.Value() == FlowBody(statements, old(state.Value())).state
      ensures broke == FlowBody(statements, old(state.Value())).broke
      ensures calls == old(calls) + FlowBody(statements, old(state.Value())).calls
      decreases statements
    {
      hide Flow;
      broke := false;
      if statements == [] { return; }
      if IsBreak(statements[0]) { return true; }
      Scan(statements[0], state);
      if !state.reachable { return; }
      broke := ScanBody(statements[1..], state);
    }

    /** The clauses from one on: their exits and what falls out of the last. */
    method ScanClauses(clauses: seq<Clause>, entry: State, through: Option<State>) returns (exits: seq<State>, last: Option<State>)
      modifies this
      ensures exits == FlowClauses(clauses, entry, through).exits && last == FlowClauses(clauses, entry, through).through
      ensures calls == old(calls) + FlowClauses(clauses, entry, through).calls
      decreases clauses
    {
      ClausesUnfold(clauses, entry, through);
      hide Flow, FlowBody, FlowClauses;
      if clauses == [] { return [], through; }
      var clause := clauses[0];
      if clause.test.Some? {
        var ignored := ScanCopy(clause.test.value, entry);
      }
      var cell := new FlowCell(ClauseEntry(entry, through));
      var broke := ScanBody(clause.statements, cell);
      exits := if broke then [cell.Value()] else [];
      var next := if broke || !cell.reachable then None else Some(cell.Value());
      var rest;
      rest, last := ScanClauses(clauses[1..], entry, next);
      exits := exits + rest;
    }

    /** `scanAsyncSwitchFlow`. */
    method ScanSwitch(node: Node, state: FlowCell)
      requires node.Switch? && state.reachable
      modifies this, state
      ensures state.Value() == FlowSwitch(node, old(state.Value())).state
      ensures calls == old(calls) + FlowSwitch(node, old(state.Value())).calls
      decreases node, 1
    {
      hide Flow, FlowClauses;
      Scan(node.subject, state);
      var entry := state.Value();
      var exits, through := ScanClauses(node.clauses, entry, None);
      if through.Some? { exits := exits + [through.value]; }
      if !HasDefault(node.clauses) { exits := exits + [entry]; }
      SwitchExitsAre(node, entry, exits);
      if exits == [] {
        state.reachable := false;
        return;
      }
      var merged := exits[0];
      for k := 1 to |exits|
        invariant merged == MergeFrom(exits[0], exits[1..k])
        invariant state.Value() == entry && calls == old(calls) + FlowSwitch(node, old(state.Value())).calls
      {
        assert exits[1..k + 1] == exits[1..k] + [exits[k]];
        MergeFromSnoc(exits[0], exits[1..k], exits[k]);
        merged := Merge(merged, exits[k]);
      }
      assert exits[1..|exits|] == exits[1..];
      state.Set(merged);
    }
  }

  lemma SwitchExitsAre(node: Node, entry: State, exits: seq<State>)
    requires node.Switch?
    requires var scan := FlowClauses(node.clauses, entry, None);
      exits == (scan.exits + (if scan.through.Some? then [scan.through.value] else [])) + (if HasDefault(node.clauses) then [] else [entry])
    ensures exits == SwitchExits(node.clauses, FlowClauses(node.clauses, entry, None), entry)
  {
    hide Flow, FlowClauses, HasDefault;
  }

  // --- one step of the definitions ---

  lemma SeqUnfolds(nodes: seq<Node>, state: State)
    ensures nodes == [] ==> FlowSeq(nodes, state) == Scan(state, [])
    ensures nodes != [] ==>
      FlowSeq(nodes, state) == Then(Flow(nodes[0], state), FlowSeq(nodes[1..], Flow(nodes[0], state).state))
  {
    hide Flow;
  }

  lemma LinksUnfold(links: seq<Link>, state: State)
    ensures links == [] ==> FlowLinks(links, state) == Scan(state, [])
    ensures links != [] ==>
      FlowLinks(links, state) == Then(FlowSeq(links[0].arguments, state), FlowLinks(links[1..], FlowSeq(links[0].arguments, state).state))
  {
    hide FlowSeq;
  }

  lemma ClausesUnfold(clauses: seq<Clause>, entry: State, through: Option<State>)
    ensures clauses == [] ==> FlowClauses(clauses, entry, through) == ClauseScan([], through, [])
    ensures clauses != [] ==>
      var clause := clauses[0];
      var tested := if clause.test.Some? then Flow(clause.test.value, entry).calls else [];
      var body := FlowBody(clause.statements, ClauseEntry(entry, through));
      var next := if body.broke || !body.state.reachable then None else Some(body.state);
      var rest := FlowClauses(clauses[1..], entry, next);
      FlowClauses(clauses, entry, through)
        == ClauseScan((if body.broke then [body.state] else []) + rest.exits, rest.through, tested + body.calls + rest.calls)
  {
    hide Flow, FlowBody;
  }

  function Report(site: nat, state: State): seq<nat> {
    if state.awaited then [site] else []
  }

  lemma Unfolds(node: Node, state: State)
    ensures !state.reachable ==> Flow(node, state) == Scan(state, [])
    ensures state.reachable ==>
      match node
      case Plain(children) => Flow(node, state) == FlowSeq(children, state)
      case Await(children) =>
        Flow(node, state) == Scan(State(true, FlowSeq(children, state).state.reachable), FlowSeq(children, state).calls)
      case Call(site, children) =>
        Flow(node, state) == Scan(FlowSeq(children, state).state, Report(site, state) + FlowSeq(children, state).calls)
      case Exit(children) =>
        Flow(node, state) == Scan(State(FlowSeq(children, state).state.awaited, false), FlowSeq(children, state).calls)
      case Branch(_, _, _) => Flow(node, state) == FlowBranch(node, state)
      case ShortCircuit(_, _) => Flow(node, state) == FlowBranch(node, state)
      case Loop(_, _, _, _, _) => Flow(node, state) == Scan(state, FlowLoop(node, state).calls)
      case Switch(_, _) => Flow(node, state) == FlowSwitch(node, state)
      case Try(_, _, _) => Flow(node, state) == FlowTry(node, state)
      case Labelled(_, body) => Flow(node, state) == Flow(body, state)
      case LogicalAssign(left, right) =>
        Flow(node, state) == Then(Flow(left, state), Flow(right, Flow(left, state).state))
      case Declare(target, initializer) =>
        Flow(node, state) == Then(Flow(target, state), Flow(initializer, Flow(target, state).state))
      case Default(value) => Flow(node, state) == Flow(value, state)
      case Chain(head, links) =>
        Flow(node, state) == Scan(FlowLinks(links, Flow(head, state).state).state,
          (if state.awaited then LinkSites(links) else []) + (Flow(head, state).calls + FlowLinks(links, Flow(head, state).state).calls))
      case Inline(children) => Flow(node, state) == FlowSeq(children, state)
      case Break => Flow(node, state) == Scan(state, [])
      case Continue => Flow(node, state) == Scan(state, [])
      case Nested => Flow(node, state) == Scan(state, [])
      case JumpTo(_, _) => Flow(node, state) == Scan(state, [])
  {
    hide FlowSeq, FlowBranch, FlowLoop, FlowSwitch, FlowTry, FlowLinks, LinkSites;
  }
}
