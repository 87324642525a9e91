/** Every structured body keeps track (internal/typefacts/tsgo/async_flow.go:339-509): one
induction over the tree, construct by construct. */
module AsyncTracking {
  import opened SortedRows
  import opened AsyncFlows
  import opened AsyncSemantics
  import opened AsyncReaches
  import opened AsyncStructures
  import opened AsyncSwitches

  ghost predicate NodeTracks(node: Node, state: State, s: nat) {
    Tracks(state, Reach(node), Flow(node, state), Count(node, s), s)
  }

  ghost predicate InnerTracks(node: Node, state: State, s: nat) {
    Tracks(state, ReachNode(node), Flow(node, state), Count(node, s), s)
  }

  lemma {:induction false} TracksNode(node: Node, state: State, s: nat)
    requires Structured(node)
    ensures NodeTracks(node, state, s)
    decreases node, if state.reachable then 4 else 5
  {
    hide Structured, Flow, ReachNode, Count;
    if !state.reachable {
      TracksNode(node, START, s);
      UnreachableFlow(node, state);
      TrackUnreachable(state, START, Reach(node), Flow(node, START), Count(node, s), s);
    } else {
      TracksInner(node, state, s);
      TrackAs(state, ReachNode(node), Flow(node, state), Count(node, s), Reach(node), Flow(node, state), s);
    }
  }

  lemma UnreachableFlow(node: Node, state: State)
    requires !state.reachable
    ensures Flow(node, state) == Scan(state, [])
  {
    Unfolds(node, state);
    hide Flow;
  }

  lemma TrackUnreachable(state: State, entry: State, quiet: Quiet, scan: Scan, count: nat, s: nat)
    requires !state.reachable && Tracks(entry, quiet, scan, count, s)
    ensures Tracks(state, quiet, Scan(state, []), count, s)
  {
  }

  lemma {:induction false} TracksInner(node: Node, state: State, s: nat)
    requires Structured(node) && state.reachable
    ensures InnerTracks(node, state, s)
    decreases node, 3
  {
    hide Structured, InnerTracks;
    match node {
      case Plain(_) => TracksChildren(node, state, s);
      case Await(_) => TracksChildren(node, state, s);
      case Call(_, _) => TracksCall(node, state, s);
      case Exit(_) => TracksChildren(node, state, s);
      case Inline(_) => TracksChildren(node, state, s);
      case Branch(_, _, _) => TracksBranch(node, state, s);
      case ShortCircuit(_, _) => TracksShort(node, state, s);
      case Loop(_, _, _, _, _) => TracksLoop(node, state, s);
      case Switch(_, _) => TracksSwitch(node, state, s);
      case Try(_, _, _) => TracksTry(node, state, s);
      case Labelled(_, _) => TracksLabelled(node, state, s);
      case LogicalAssign(_, _) => TracksAssign(node, state, s);
      case Declare(_, _) => TracksDeclare(node, state, s);
      case Default(_) => TracksDefault(node, state, s);
      case Chain(_, _) => TracksChain(node, state, s);
      case Break => TracksLeaf(node, state, s);
      case Continue => TracksLeaf(node, state, s);
      case Nested => TracksLeaf(node, state, s);
      case JumpTo(_, _) => TracksLeaf(node, state, s);
    }
  }

  lemma TracksLeaf(node: Node, state: State, s: nat)
    requires state.reachable && (node.Break? || node.Continue? || node.Nested? || node.JumpTo?)
    ensures InnerTracks(node, state, s)
  {
    Unfolds(node, state);
    hide Flow;
    TrackNothing(state, ReachNode(node), s);
  }

  lemma {:induction false} TracksSeq(nodes: seq<Node>, state: State, s: nat)
    requires StructuredSeq(nodes)
    ensures Tracks(state, ReachSeq(nodes), FlowSeq(nodes, state), CountSeq(nodes, s), s)
    decreases nodes, 4
  {
    SeqUnfolds(nodes, state);
    hide Structured, Flow, FlowSeq, Reach, Count, Tracks, QSeq;
    if nodes == [] {
      TrackNothing(state, QDONE, s);
    } else {
      TracksNode(nodes[0], state, s);
      var first := Flow(nodes[0], state);
      TracksSeq(nodes[1..], first.state, s);
      TrackSeq(state, Reach(nodes[0]), first, Count(nodes[0], s), ReachSeq(nodes[1..]), FlowSeq(nodes[1..], first.state), CountSeq(nodes[1..], s), s);
    }
  }

  lemma {:induction false} TracksChildren(node: Node, state: State, s: nat)
    requires node.Plain? || node.Await? || node.Exit? || node.Inline?
    requires Structured(node) && state.reachable
    ensures InnerTracks(node, state, s)
    decreases node, 0
  {
    Unfolds(node, state);
    var children := node.children;
    TracksSeq(children, state, s);
    var quiet, scan := ReachSeq(children), FlowSeq(children, state);
    ChildrenReach(node);
    hide Flow, FlowSeq, Reach, ReachNode, ReachSeq, StructuredSeq, Steady, Tracks;
    TrackStart(state, quiet, scan, Count(node, s), s);
    TrackAs(state, quiet, scan, Count(node, s), ReachNode(node), Flow(node, state), s);
  }

  lemma ChildrenReach(node: Node)
    requires node.Plain? || node.Await? || node.Exit? || node.Inline?
    ensures ReachNode(node).sites <= ReachSeq(node.children).sites
    ensures Normal in ReachNode(node).outcomes ==> node.Inline? || (node.Plain? && Normal in ReachSeq(node.children).outcomes)
  {
    var quiet := ReachSeq(node.children);
    if node.Plain? { SeqParts(quiet, Both(QDONE, QCUT)); }
    if node.Await? { SeqParts(quiet, QCUT); }
    if node.Exit? { SeqParts(quiet, Both(QPure(Returned), QPure(Threw))); }
    hide ReachSeq, QSeq;
  }

  lemma {:induction false} TracksCall(node: Node, state: State, s: nat)
    requires node.Call? && Structured(node) && state.reachable
    ensures InnerTracks(node, state, s)
    decreases node, 0
  {
    Unfolds(node, state);
    TracksSeq(node.children, state, s);
    var quiet, scan, count := ReachSeq(node.children), FlowSeq(node.children, state), CountSeq(node.children, s);
    CallReach(node);
    hide Flow, FlowSeq, Reach, ReachNode, ReachSeq, StructuredSeq, CountSeq, Tracks, QSeq;
    TrackCall(scan.state, node.site, s);
    TrackSeq(state, quiet, scan, count, QCall(node.site), Scan(scan.state, []), One(Some(node.site), s), s);
    var whole := Then(scan, Scan(scan.state, []));
    TrackStart(state, QSeq(quiet, QCall(node.site)), whole, Count(node, s), s);
    TrackAs(state, QSeq(quiet, QCall(node.site)), whole, Count(node, s), ReachNode(node), Flow(node, state), s);
  }

  lemma CallReach(node: Node)
    requires node.Call?
    ensures ReachNode(node) == QSeq(ReachSeq(node.children), QCall(node.site))
  {
    hide ReachSeq, QSeq;
  }

  lemma TrackStart(entry: State, quiet: Quiet, scan: Scan, count: nat, s: nat)
    requires Tracks(entry, quiet, scan, count, s)
    ensures entry == START && Normal in quiet.outcomes ==> scan.state == START
  {
  }

  lemma BranchParts(node: Node, state: State)
    requires node.Branch? && Structured(node) && state.reachable
    ensures Structured(node.condition) && Structured(node.whenTrue) && Structured(node.whenFalse)
    ensures ReachNode(node) == QSeq(Reach(node.condition), Both(Reach(node.whenTrue), Reach(node.whenFalse)))
    ensures var first := Flow(node.condition, state);
      var yes, no := Flow(node.whenTrue, first.state), Flow(node.whenFalse, first.state);
      Flow(node, state) == Then(first, Scan(Merge(yes.state, no.state), yes.calls + no.calls))
  {
    Unfolds(node, state);
    hide Flow, Reach, Merge, QSeq;
    var first := Flow(node.condition, state);
    var yes, no := Flow(node.whenTrue, first.state), Flow(node.whenFalse, first.state);
    assert first.calls + (yes.calls + no.calls) == first.calls + yes.calls + no.calls;
  }

  lemma {:induction false} TracksBranch(node: Node, state: State, s: nat)
    requires node.Branch? && Structured(node) && state.reachable
    ensures InnerTracks(node, state, s)
    decreases node, 0
  {
    hide Structured, Flow, Reach, ReachNode, Tracks, QSeq, Merge, Then;
    BranchParts(node, state);
    var a, b, c := node.condition, node.whenTrue, node.whenFalse;
    var first := Flow(a, state);
    TracksNode(a, state, s);
    TracksNode(b, first.state, s);
    TracksNode(c, first.state, s);
    var yes, no := Flow(b, first.state), Flow(c, first.state);
    var either := Scan(Merge(yes.state, no.state), yes.calls + no.calls);
    TrackMerge(first.state, Reach(b), yes, Count(b, s), Reach(c), no, Count(c, s), s);
    TrackSeq(state, Reach(a), first, Count(a, s), Both(Reach(b), Reach(c)), either, Count(b, s) + Count(c, s), s);
  }

  lemma {:induction false} TracksShort(node: Node, state: State, s: nat)
    requires node.ShortCircuit? && Structured(node) && state.reachable
    ensures InnerTracks(node, state, s)
    decreases node, 0
  {
    Unfolds(node, state);
    var a, b := node.left, node.right;
    var first := Flow(a, state);
    TracksNode(a, state, s);
    TracksNode(b, first.state, s);
    hide Structured, Flow, Reach, Tracks, QSeq, Merge;
    var second := Flow(b, first.state);
    var maybe := Scan(Merge(first.state, second.state), second.calls);
    TrackNothing(first.state, QDONE, s);
    TrackMerge(first.state, QDONE, Scan(first.state, []), 0, Reach(b), second, Count(b, s), s);
    assert [] + second.calls == second.calls;
    TrackSeq(state, Reach(a), first, Count(a, s), Both(QDONE, Reach(b)), maybe, Count(b, s), s);
    assert Flow(node, state) == Then(first, maybe);
  }

  lemma {:induction false} TracksAssign(node: Node, state: State, s: nat)
    requires node.LogicalAssign? && Structured(node) && state.reachable
    ensures InnerTracks(node, state, s)
    decreases node, 0
  {
    Unfolds(node, state);
    var a, b := node.left, node.right;
    var first := Flow(a, state);
    TracksNode(a, state, s);
    TracksNode(b, first.state, s);
    hide Structured, Flow, Reach, Tracks, QSeq;
    var second := Flow(b, first.state);
    TrackAs(first.state, Reach(b), second, Count(b, s), Both(QDONE, Reach(b)), second, s);
    TrackSeq(state, Reach(a), first, Count(a, s), Both(QDONE, Reach(b)), second, Count(b, s), s);
  }

  lemma {:induction false} TracksDeclare(node: Node, state: State, s: nat)
    requires node.Declare? && Structured(node) && state.reachable
    ensures InnerTracks(node, state, s)
    decreases node, 0
  {
    Unfolds(node, state);
    var a, b := node.initializer, node.target;
    var first := Flow(b, state);
    TracksNode(b, state, s);
    TracksNode(a, first.state, s);
    hide Structured, Flow, Reach, Tracks, QSeq;
    SeqParts(Reach(a), Reach(b));
    var second := Flow(a, first.state);
    TrackSwap(state, Reach(a), second, Count(a, s), Reach(b), first, Count(b, s), s);
    TrackStart(state, Quiet(Reach(a).outcomes, Reach(a).sites + Reach(b).sites), Then(first, second), Count(node, s), s);
    TrackAs(state, Quiet(Reach(a).outcomes, Reach(a).sites + Reach(b).sites), Then(first, second), Count(node, s), ReachNode(node), Then(first, second), s);
  }

  lemma {:induction false} TracksDefault(node: Node, state: State, s: nat)
    requires node.Default? && Structured(node) && state.reachable
    ensures InnerTracks(node, state, s)
    decreases node, 0
  {
    Unfolds(node, state);
    TracksNode(node.value, state, s);
    hide Structured, Flow, Reach, Tracks;
    TrackAs(state, Reach(node.value), Flow(node.value, state), Count(node, s), ReachNode(node), Flow(node, state), s);
  }

  lemma {:induction false} TracksLabelled(node: Node, state: State, s: nat)
    requires node.Labelled? && Structured(node) && state.reachable
    ensures InnerTracks(node, state, s)
    decreases node, 0
  {
    Unfolds(node, state);
    TracksNode(node.body, state, s);
    CaughtParts(Reach(node.body), BrokeOut(node.name), QDONE);
    hide Structured, Flow, Reach, Tracks, QBind;
    TrackStart(state, Reach(node.body), Flow(node.body, state), Count(node, s), s);
    TrackAs(state, Reach(node.body), Flow(node.body, state), Count(node, s), ReachNode(node), Flow(node, state), s);
  }

  // --- chains ---

  lemma {:induction false} TracksLinks(links: seq<Link>, state: State, s: nat)
    requires StructuredLinks(links)
    ensures Tracks(state, ReachLinks(links), FlowLinks(links, state), CountLinks(links, s), s)
    decreases links, 4
  {
    LinksUnfold(links, state);
    if links == [] {
      TrackNothing(state, QDONE, s);
    } else {
      var link, rest := links[0], links[1..];
      var first := FlowSeq(link.arguments, state);
      TracksSeq(link.arguments, state, s);
      TracksLinks(rest, first.state, s);
      hide FlowSeq, FlowLinks, ReachSeq, StructuredLinks, StructuredSeq, Tracks, QSeq;
      var call := if link.site.Some? then QCall(link.site.value) else QDONE;
      var later := FlowLinks(rest, first.state);
      OneTracks(first.state, link.site, s);
      TrackSeq(first.state, call, Scan(first.state, []), One(link.site, s), ReachLinks(rest), later, CountLinks(rest, s), s);
      assert Then(Scan(first.state, []), later) == later;
      TrackSeq(state, ReachSeq(link.arguments), first, CountSeq(link.arguments, s), QSeq(call, ReachLinks(rest)), later, One(link.site, s) + CountLinks(rest, s), s);
      var main := QSeq(ReachSeq(link.arguments), QSeq(call, ReachLinks(rest)));
      TrackStart(state, main, FlowLinks(links, state), CountLinks(links, s), s);
      TrackAs(state, main, FlowLinks(links, state), CountLinks(links, s), ReachLinks(links), FlowLinks(links, state), s);
    }
  }

  lemma OneTracks(state: State, site: Option<nat>, s: nat)
    ensures Tracks(state, if site.Some? then QCall(site.value) else QDONE, Scan(state, []), One(site, s), s)
  {
    if site.Some? { TrackCall(state, site.value, s); } else { TrackNothing(state, QDONE, s); }
  }

  lemma {:induction false} LinkSitesCount(links: seq<Link>, s: nat)
    requires s in LinkSites(links)
    ensures CountLinks(links, s) >= 1
  {
    hide CountSeq;
    if s in LinkSites(links[1..]) { LinkSitesCount(links[1..], s); }
  }

  lemma {:induction false} TracksChain(node: Node, state: State, s: nat)
    requires node.Chain? && Structured(node) && state.reachable
    ensures InnerTracks(node, state, s)
    decreases node, 0
  {
    Unfolds(node, state);
    var first := Flow(node.head, state);
    TracksNode(node.head, state, s);
    TracksLinks(node.links, first.state, s);
    if s in LinkSites(node.links) { LinkSitesCount(node.links, s); }
    hide Structured, Flow, FlowLinks, Reach, ReachLinks, LinkSites, CountLinks, Tracks, QSeq;
    var rest := FlowLinks(node.links, first.state);
    TrackSeq(state, Reach(node.head), first, Count(node.head, s), ReachLinks(node.links), rest, CountLinks(node.links, s), s);
    TrackStart(state, QSeq(Reach(node.head), ReachLinks(node.links)), Then(first, rest), Count(node, s), s);
    TrackAs(state, QSeq(Reach(node.head), ReachLinks(node.links)), Then(first, rest), Count(node, s), ReachNode(node), Flow(node, state), s);
  }

  // --- try ---

  lemma FinalParts(p: Quiet, q: Quiet)
    ensures QBind(p, QOnFinal(q)).sites <= p.sites + q.sites
    ensures Normal in QBind(p, QOnFinal(q)).outcomes ==> Normal in q.outcomes
  {
  }

  /** The block with its handler. */
  function Guarded(node: Node): Quiet
    requires node.Try?
  {
    if node.handler.Some? then QBind(Reach(node.block), QOnCaught(Threw, Reach(node.handler.value))) else Reach(node.block)
  }

  function FlowGuarded(node: Node, state: State): Scan
    requires node.Try?
  {
    var tried := Flow(node.block, state);
    var caught := if node.handler.Some? then Flow(node.handler.value, state) else Scan(tried.state, []);
    Scan(Merge(tried.state, caught.state), tried.calls + caught.calls)
  }

  function CountGuarded(node: Node, s: nat): nat
    requires node.Try?
  {
    Count(node.block, s) + if node.handler.Some? then Count(node.handler.value, s) else 0
  }

  lemma {:induction false} TracksGuarded(node: Node, state: State, s: nat)
    requires node.Try? && Structured(node)
    ensures Tracks(state, Guarded(node), FlowGuarded(node, state), CountGuarded(node, s), s)
    decreases node, 0
  {
    var tried := Flow(node.block, state);
    TracksNode(node.block, state, s);
    if node.handler.Some? {
      var handler := node.handler.value;
      TracksNode(handler, state, s);
      CaughtParts(Reach(node.block), Threw, Reach(handler));
      hide Structured, Flow, Reach, Tracks, QBind;
      TrackMerge(state, Reach(node.block), tried, Count(node.block, s), Reach(handler), Flow(handler, state), Count(handler, s), s);
      var both := Both(Reach(node.block), Reach(handler));
      TrackStart(state, both, FlowGuarded(node, state), CountGuarded(node, s), s);
      TrackAs(state, both, FlowGuarded(node, state), CountGuarded(node, s), Guarded(node), FlowGuarded(node, state), s);
    } else {
      assert Merge(tried.state, tried.state) == tried.state;
      hide Structured, Flow, Reach, Tracks;
      assert FlowGuarded(node, state) == tried;
    }
  }

  lemma TryUnfolds(node: Node, state: State)
    requires node.Try?
    ensures FlowTry(node, state) ==
      if node.finalizer.Some? then Then(FlowGuarded(node, state), Flow(node.finalizer.value, FlowGuarded(node, state).state)) else FlowGuarded(node, state)
    ensures ReachNode(node) ==
      if node.finalizer.Some? then QBind(Guarded(node), QOnFinal(Reach(node.finalizer.value))) else Guarded(node)
  {
    hide Flow, Reach, QBind;
  }

  lemma {:induction false} TracksTry(node: Node, state: State, s: nat)
    requires node.Try? && Structured(node) && state.reachable
    ensures InnerTracks(node, state, s)
    decreases node, 1
  {
    Unfolds(node, state);
    TryUnfolds(node, state);
    TracksGuarded(node, state, s);
    var guarded, count := FlowGuarded(node, state), CountGuarded(node, s);
    if node.finalizer.Some? {
      var finalizer := node.finalizer.value;
      TracksNode(finalizer, guarded.state, s);
      FinalParts(Guarded(node), Reach(finalizer));
      SteadyGuarded(node);
      hide Structured, Flow, FlowTry, Reach, ReachNode, Tracks, QBind, QSeq, Guarded, FlowGuarded;
      var last := Flow(finalizer, guarded.state);
      var always := Quiet({Normal}, Guarded(node).sites);
      TrackAs(state, Guarded(node), guarded, count, always, guarded, s);
      TrackSeq(state, always, guarded, count, Reach(finalizer), last, Count(finalizer, s), s);
      SeqParts(always, Reach(finalizer));
      TrackStart(state, QSeq(always, Reach(finalizer)), Then(guarded, last), Count(node, s), s);
      TrackAs(state, QSeq(always, Reach(finalizer)), Then(guarded, last), Count(node, s), ReachNode(node), Flow(node, state), s);
    }
  }

  /** A finalizer is scanned from the start. */
  lemma SteadyGuarded(node: Node)
    requires node.Try? && Structured(node) && node.finalizer.Some?
    ensures FlowGuarded(node, START).state == START
  {
    hide Flow, Structured;
    assert Steady(node.block) || (node.handler.Some? && Steady(node.handler.value)) by { SteadyParts(node); }
  }

  lemma SteadyParts(node: Node)
    requires Structured(node)
    ensures node.Try? && node.finalizer.Some? ==> Steady(node.block) || (node.handler.Some? && Steady(node.handler.value))
  {
    hide Steady;
  }

  // --- loops ---

  lemma BodyParts(p: Quiet, q: Quiet)
    ensures QBind(p, QOnBody(q)).sites <= p.sites + q.sites
    ensures Normal !in p.outcomes && Continued !in p.outcomes ==> QBind(p, QOnBody(q)).sites == p.sites
  {
  }

  /** A loop leaves the scan where it was. */
  lemma TrackLoop(node: Node, state: State, quiet: Quiet, scan: Scan, count: nat, s: nat)
    requires node.Loop? && state.reachable
    requires Tracks(state, quiet, scan, count, s) && ReachNode(node).sites <= quiet.sites
    requires scan.calls == FlowLoop(node, state).calls && count <= Count(node, s)
    ensures InnerTracks(node, state, s)
  {
    Unfolds(node, state);
    hide Flow, FlowLoop, ReachNode, Count;
    TrackAs(state, quiet, scan, count, ReachNode(node), Scan(state, scan.calls), s);
  }

  lemma {:induction false} TracksLoop(node: Node, state: State, s: nat)
    requires node.Loop? && Structured(node) && state.reachable
    ensures InnerTracks(node, state, s)
    decreases node, 2
  {
    hide Structured, InnerTracks;
    match node.kind {
      case While => TracksWhile(node, state, s);
      case DoWhile => TracksDo(node, state, s);
      case For => TracksFor(node, state, s);
      case ForEach => TracksForEach(node, state, s);
    }
  }

  lemma {:induction false} TracksWhile(node: Node, state: State, s: nat)
    requires node.Loop? && node.kind == While && Structured(node) && state.reachable
    ensures InnerTracks(node, state, s)
    decreases node, 0
  {
    var a, b := node.condition, node.body;
    var first := Flow(a, state);
    var second := Flow(b, first.state);
    TracksNode(a, state, s);
    TracksNode(b, first.state, s);
    WhileReach(node);
    hide Structured, Flow, Reach, ReachNode, Tracks, QSeq, InnerTracks;
    TrackSeq(state, Reach(a), first, Count(a, s), Reach(b), second, Count(b, s), s);
    TrackLoop(node, state, QSeq(Reach(a), Reach(b)), Then(first, second), Count(a, s) + Count(b, s), s);
  }

  lemma WhileReach(node: Node)
    requires node.Loop? && node.kind == While
    ensures ReachNode(node).sites <= QSeq(Reach(node.condition), Reach(node.body)).sites
  {
    var body := QBind(Reach(node.body), QOnBody(NEVER));
    SeqParts(Reach(node.condition), Both(QDONE, body));
    SeqParts(Reach(node.condition), Reach(node.body));
    BodyParts(Reach(node.body), NEVER);
    hide Reach, QSeq, QBind;
  }

  lemma {:induction false} TracksDo(node: Node, state: State, s: nat)
    requires node.Loop? && node.kind == DoWhile && Structured(node) && state.reachable
    ensures InnerTracks(node, state, s)
    decreases node, 0
  {
    hide Structured, Flow, FlowLoop, Reach, ReachNode, Tracks, QSeq, InnerTracks, Count, Then, OnwardBody;
    LoopParts(node);
    var a, b := node.body, node.condition;
    var first := Flow(a, state);
    var second := Flow(b, first.state);
    TracksNode(a, state, s);
    TracksNode(b, first.state, s);
    OnwardTracks(node, state, s);
    DoReach(node);
    DoCalls(node, state, s);
    TrackSeq(state, OnwardBody(Reach(a)), first, Count(a, s), Reach(b), second, Count(b, s), s);
    TrackLoop(node, state, QSeq(OnwardBody(Reach(a)), Reach(b)), Then(first, second), Count(a, s) + Count(b, s), s);
  }

  lemma DoCalls(node: Node, state: State, s: nat)
    requires node.Loop? && node.kind == DoWhile
    ensures FlowLoop(node, state).calls == Then(Flow(node.body, state), Flow(node.condition, Flow(node.body, state).state)).calls
    ensures Count(node.body, s) + Count(node.condition, s) <= Count(node, s)
  {
    hide Flow;
  }

  /** A `continue` before any await is allowed only where the body stays at the start. */
  lemma OnwardTracks(node: Node, state: State, s: nat)
    requires node.Loop? && node.kind == DoWhile && Structured(node)
    requires NodeTracks(node.body, state, s)
    ensures Tracks(state, OnwardBody(Reach(node.body)), Flow(node.body, state), Count(node.body, s), s)
  {
    hide Structured, Flow, Reach;
    assert Flow(node.body, START).state == START || Continued !in Reach(node.body).outcomes by { DoParts(node); }
  }

  lemma DoParts(node: Node)
    requires node.Loop? && node.kind == DoWhile && Structured(node)
    ensures Flow(node.body, START).state == START || Continued !in Reach(node.body).outcomes
  {
    hide Flow, Reach;
  }

  /** A body after which the condition is evaluated. */
  function OnwardBody(body: Quiet): Quiet {
    Quiet(if Normal in body.outcomes || Continued in body.outcomes then {Normal} else {}, body.sites)
  }

  lemma DoReach(node: Node)
    requires node.Loop? && node.kind == DoWhile
    ensures ReachNode(node).sites <= QSeq(OnwardBody(Reach(node.body)), Reach(node.condition)).sites
  {
    var test := QSeq(Reach(node.condition), Both(QDONE, NEVER));
    SeqParts(Reach(node.condition), Both(QDONE, NEVER));
    SeqParts(OnwardBody(Reach(node.body)), Reach(node.condition));
    BodyParts(Reach(node.body), test);
    hide Reach, QSeq, QBind;
  }

  lemma LoopParts(node: Node)
    requires node.Loop? && Structured(node)
    ensures Structured(node.head) && Structured(node.condition) && Structured(node.step) && Structured(node.body)
    ensures node.kind == For ==> Flow(node.step, START).state == START
    ensures node.kind == ForEach ==> Flow(node.head, START).state == START
  {
    hide Flow, Reach;
  }

  lemma {:induction false} TracksFor(node: Node, state: State, s: nat)
    requires node.Loop? && node.kind == For && Structured(node) && state.reachable
    ensures InnerTracks(node, state, s)
    decreases node, 1
  {
    hide Structured, Flow, FlowLoop, Reach, ReachNode, Tracks, QSeq, InnerTracks, Count, Then;
    LoopParts(node);
    var head, test := node.head, node.condition;
    var a := Flow(head, state);
    var b := Flow(test, a.state);
    TracksNode(head, state, s);
    TracksNode(test, a.state, s);
    var rest := TracksForTail(node, b.state, s);
    var tail, count := ForTail(node), Count(node.body, s) + Count(node.step, s);
    hide ForTail;
    TrackSeq(a.state, Reach(test), b, Count(test, s), tail, rest, count, s);
    assert Then(b, rest).state == rest.state by { ThenIs(b, rest); }
    TrackSeq(state, Reach(head), a, Count(head, s), QSeq(Reach(test), tail), Then(b, rest), Count(test, s) + count, s);
    ForCalls(node, state);
    ForReach(node);
    ForCount(node, s);
    TrackLoop(node, state, QSeq(Reach(head), QSeq(Reach(test), tail)), Then(a, Then(b, rest)), Count(node, s), s);
  }

  lemma ThenIs(a: Scan, b: Scan)
    ensures Then(a, b) == Scan(b.state, a.calls + b.calls)
  {
  }

  lemma ForCount(node: Node, s: nat)
    requires node.Loop?
    ensures Count(node, s) == Count(node.head, s) + (Count(node.condition, s) + (Count(node.body, s) + Count(node.step, s)))
  {
  }

  /** Step and body, from where the condition leaves the scan. */
  lemma {:induction false} TracksForTail(node: Node, state: State, s: nat) returns (rest: Scan)
    requires node.Loop? && node.kind == For && Structured(node)
    ensures rest == Then(Flow(node.step, state), Flow(node.body, Flow(node.step, state).state))
    ensures Tracks(state, ForTail(node), rest, Count(node.body, s) + Count(node.step, s), s)
    decreases node, 0
  {
    hide Structured, Flow, Reach, Tracks, Count, Then;
    LoopParts(node);
    var step, body := node.step, node.body;
    var c := Flow(step, state);
    var d := Flow(body, c.state);
    TracksNode(step, state, s);
    TracksNode(body, c.state, s);
    rest := Then(c, d);
    TrackSwap(state, Reach(body), d, Count(body, s), Reach(step), c, Count(step, s), s);
  }

  lemma ForCalls(node: Node, state: State)
    requires node.Loop? && node.kind == For
    ensures var a := Flow(node.head, state); var b := Flow(node.condition, a.state); var c := Flow(node.step, b.state);
      FlowLoop(node, state).calls == Then(a, Then(b, Then(c, Flow(node.body, c.state)))).calls
  {
    hide Flow;
  }

  function ForTail(node: Node): Quiet
    requires node.Loop?
  {
    Quiet(Reach(node.body).outcomes, Reach(node.body).sites + Reach(node.step).sites)
  }

  lemma SeqMore(p: Quiet, q: Quiet, more: Quiet)
    requires q.sites <= more.sites
    ensures QSeq(p, q).sites <= QSeq(p, more).sites
  {
    SeqParts(p, q);
    SeqParts(p, more);
    hide QSeq;
  }

  function ForBody(node: Node): Quiet
    requires node.Loop?
  {
    QBind(Reach(node.body), QOnBody(QSeq(Reach(node.step), NEVER)))
  }

  lemma ForUnfolds(node: Node)
    requires node.Loop? && node.kind == For
    ensures ReachNode(node) == QSeq(Reach(node.head), QSeq(Reach(node.condition), Both(QDONE, ForBody(node))))
  {
    hide Reach, QSeq, QBind, QOnBody, Both;
  }

  lemma ForBodySites(node: Node)
    requires node.Loop?
    ensures Both(QDONE, ForBody(node)).sites <= ForTail(node).sites
  {
    SeqParts(Reach(node.step), NEVER);
    BodyParts(Reach(node.body), QSeq(Reach(node.step), NEVER));
    hide Reach, QSeq, QBind, QOnBody;
  }

  lemma ForReach(node: Node)
    requires node.Loop? && node.kind == For
    ensures ReachNode(node).sites <= QSeq(Reach(node.head), QSeq(Reach(node.condition), ForTail(node))).sites
  {
    ForUnfolds(node);
    ForBodySites(node);
    hide *;
    var once := Both(QDONE, ForBody(node));
    SeqMore(Reach(node.condition), once, ForTail(node));
    SeqMore(Reach(node.head), QSeq(Reach(node.condition), once), QSeq(Reach(node.condition), ForTail(node)));
  }

  lemma {:induction false} TracksForEach(node: Node, state: State, s: nat)
    requires node.Loop? && node.kind == ForEach && Structured(node) && state.reachable
    ensures InnerTracks(node, state, s)
    decreases node, 0
  {
    hide Structured, Flow, FlowLoop, Reach, ReachNode, Tracks, QSeq, InnerTracks, Count, Then;
    LoopParts(node);
    var head, items, body := node.head, node.condition, node.body;
    var a := Flow(head, state);
    var b := Flow(items, a.state);
    var c := Flow(body, b.state);
    TracksNode(head, state, s);
    TracksNode(items, a.state, s);
    TracksNode(body, b.state, s);
    TrackSwap(state, Reach(items), b, Count(items, s), Reach(head), a, Count(head, s), s);
    var front := EachFront(node);
    hide EachFront;
    ThenIs(a, b);
    TrackSeq(state, front, Then(a, b), Count(items, s) + Count(head, s), Reach(body), c, Count(body, s), s);
    EachReach(node);
    EachCalls(node, state, s);
    TrackLoop(node, state, QSeq(front, Reach(body)), Then(Then(a, b), c), Count(items, s) + Count(head, s) + Count(body, s), s);
  }

  lemma EachCalls(node: Node, state: State, s: nat)
    requires node.Loop? && node.kind == ForEach
    ensures var a := Flow(node.head, state); var b := Flow(node.condition, a.state);
      FlowLoop(node, state).calls == Then(Then(a, b), Flow(node.body, b.state)).calls
    ensures Count(node.condition, s) + Count(node.head, s) + Count(node.body, s) <= Count(node, s)
  {
    hide Flow;
  }

  function EachFront(node: Node): Quiet
    requires node.Loop?
  {
    Quiet(Reach(node.condition).outcomes, Reach(node.condition).sites + Reach(node.head).sites)
  }

  function EachRest(node: Node): Quiet
    requires node.Loop?
  {
    Both(QDONE, QSeq(Reach(node.head), QBind(Reach(node.body), QOnBody(NEVER))))
  }

  lemma EachUnfolds(node: Node)
    requires node.Loop? && node.kind == ForEach
    ensures ReachNode(node) == QSeq(Reach(node.condition), EachRest(node))
  {
    hide Reach, QSeq, QBind, QOnBody, Both;
  }

  lemma EachRestSites(node: Node)
    requires node.Loop?
    ensures EachRest(node).sites <= Reach(node.head).sites + Reach(node.body).sites
  {
    BodyParts(Reach(node.body), NEVER);
    SeqParts(Reach(node.head), QBind(Reach(node.body), QOnBody(NEVER)));
    hide Reach, QSeq, QBind, QOnBody;
  }

  lemma EachReach(node: Node)
    requires node.Loop? && node.kind == ForEach
    ensures ReachNode(node).sites <= QSeq(EachFront(node), Reach(node.body)).sites
  {
    EachUnfolds(node);
    EachRestSites(node);
    SeqParts(Reach(node.condition), EachRest(node));
    SeqParts(EachFront(node), Reach(node.body));
    hide Reach, ReachNode, EachRest, QSeq;
  }

  // --- switches ---

  lemma {:induction false} TracksBody(statements: seq<Node>, state: State, s: nat)
    requires StructuredSeq(statements)
    ensures BodyTracks(state, statements, s)
    decreases statements, 4
  {
    hide Structured, BodyTracks, Flow, FlowBody, Reach, ReachSeq, Tracks;
    if statements == [] {
      EmptyBody(state, s);
    } else if IsBreak(statements[0]) {
      TracksBody(statements[1..], state, s);
      BodyBreaks(state, statements, s);
    } else {
      TracksNode(statements[0], state, s);
      TracksBody(statements[1..], Flow(statements[0], state).state, s);
      BodyStep(state, statements, s);
    }
  }

  lemma EmptyBody(state: State, s: nat)
    ensures BodyTracks(state, [], s)
  {
    BodyUnfolds([], state);
    TrackNothing(state, QDONE, s);
  }

  lemma {:induction false} TracksClauses(clauses: seq<Clause>, s: nat)
    requires StructuredClauses(clauses)
    ensures forall c :: 0 <= c < |clauses| ==> ClauseTracks(clauses[c], s)
    decreases clauses, 4
  {
    hide Structured, StructuredSeq, ClauseTracks;
    if clauses != [] {
      TracksClause(clauses, s);
      TracksClauses(clauses[1..], s);
      assert forall c :: 0 < c < |clauses| ==> clauses[c] == clauses[1..][c - 1];
    }
  }

  lemma {:induction false} TracksClause(clauses: seq<Clause>, s: nat)
    requires clauses != [] && StructuredClauses(clauses)
    ensures ClauseTracks(clauses[0], s)
    decreases clauses, 3
  {
    var clause := clauses[0];
    hide Structured, StructuredSeq, StructuredClauses, BodyTracks, Tracks, Flow, Reach;
    forall st: State ensures ClauseTracksFrom(clause, st, s) {
      TracksBody(clause.statements, st, s);
      if clause.test.Some? {
        TracksNode(clause.test.value, st, s);
      } else {
        TrackNothing(st, QDONE, s);
      }
    }
  }

  lemma {:induction false} TracksSwitch(node: Node, state: State, s: nat)
    requires node.Switch? && Structured(node) && state.reachable
    ensures InnerTracks(node, state, s)
    decreases node, 0
  {
    Unfolds(node, state);
    TracksNode(node.subject, state, s);
    TracksClauses(node.clauses, s);
    hide Structured, Flow, FlowSwitch, Reach, ReachNode, Tracks, ClauseTracks, Count, Steady, TidyClauses, Tidy;
    SwitchIs(node);
    SwitchTracks(node, state, s);
  }

  lemma SwitchIs(node: Node)
    requires node.Switch? && Structured(node)
    ensures Steady(node) || (Tidy(node.subject, Broke) && TidyClauses(node.clauses))
    ensures Flow(node, START) == FlowSwitch(node, START)
  {
    Unfolds(node, START);
    hide Flow, FlowSwitch, Steady, Tidy, TidyClauses, StructuredClauses;
  }
}
