/** The computed ends and early calls of steps and loops are exactly those of the execution semantics. */
module AsyncLoopExactness {
  import opened SortedRows
  import opened AsyncFlows
  import opened AsyncSemantics
  import opened AsyncReaches

  // --- one step at a time ---

  lemma CaughtExact(first: Runs, p: Quiet, caught: Outcome, rest: Runs, q: Quiet)
    requires Exact(first, p) && Exact(rest, q)
    ensures Exact(Bind(first, OnCaught(caught, rest)), QBind(p, QOnCaught(caught, q)))
  {
    hide Exact, Bind, QBind, Pure;
    NextExact(OnCaught(caught, rest), QOnCaught(caught, q), rest, q);
    BindExact(first, OnCaught(caught, rest), p, QOnCaught(caught, q));
  }

  lemma FinalExact(first: Runs, p: Quiet, finalizer: Runs, q: Quiet)
    requires Exact(first, p) && Exact(finalizer, q)
    ensures Exact(Bind(first, OnFinal(finalizer)), QBind(p, QOnFinal(q)))
  {
    hide Exact, Bind, QBind, Pure;
    forall o ensures Exact(OnFinal(finalizer)(o), QOnFinal(q)(o)) {
      PureExact(o);
      NextExact(OnNormal(Pure(o)), QOnNormal(QPure(o)), Pure(o), QPure(o));
      BindExact(finalizer, OnNormal(Pure(o)), q, QOnNormal(QPure(o)));
    }
    BindExact(first, OnFinal(finalizer), p, QOnFinal(q));
  }

  lemma EmitExact(site: nat)
    ensures Exact(Emit(Called(site)), Quiet({Normal}, {site}))
  {
    var run := Run([Called(site)], Normal);
    assert run in Emit(Called(site)) && Silent(run);
    assert CallsAt(run, site, 0);
  }

  lemma DoneOrCutExact()
    ensures Exact(Done() + Cut(), Both(QDONE, QCUT))
  {
    hide Exact, Done, Cut;
    DoneExact();
    CutExact();
    OrExact(Done(), Cut(), QDONE, QCUT);
  }

  lemma CallExact(site: nat)
    ensures Exact(CallOf(site), QCall(site))
  {
    hide Exact, Cut, Done, Seq, Emit;
    EmitExact(site);
    DoneOrCutExact();
    CutExact();
    SeqExact(Emit(Called(site)), Done() + Cut(), Quiet({Normal}, {site}), Both(QDONE, QCUT));
    OrExact(Cut(), Seq(Emit(Called(site)), Done() + Cut()), QCUT, QSeq(Quiet({Normal}, {site}), Both(QDONE, QCUT)));
    CallQuiet(site);
  }

  lemma CallQuiet(site: nat)
    ensures Both(QCUT, QSeq(Quiet({Normal}, {site}), Both(QDONE, QCUT))) == QCall(site)
  {
    var p, rest := Quiet({Normal}, {site}), Both(QDONE, QCUT);
    forall o ensures o in QSeq(p, rest).outcomes <==> o == Normal || o == Threw || o == Halted {
      if o in rest.outcomes { QBindHas(p, QOnNormal(rest), Normal, o); }
    }
    assert QSeq(p, rest).sites == {site};
  }

  lemma QBindHas(p: Quiet, q: Outcome -> Quiet, a: Outcome, o: Outcome)
    requires a in p.outcomes && o in q(a).outcomes
    ensures o in QBind(p, q).outcomes
  {
  }

  /** After an await nothing is early any more. */
  lemma AwaitExact()
    ensures Exact(Cut() + Seq(Emit(Awaited), Done() + Cut()), QCUT)
  {
    hide Cut;
    CutExact();
    var after := Seq(Emit(Awaited), Done() + Cut());
    assert Sound(after, NEVER) by { AwaitedSound(Done() + Cut()); }
    hide Seq;
    OrSound(Cut(), after, QCUT, NEVER);
    assert Both(QCUT, NEVER) == QCUT;
    CompleteMore(Cut(), Cut() + after, QCUT);
    hide Sound, Complete;
  }

  lemma AwaitedSound(rest: Runs)
    ensures Sound(Seq(Emit(Awaited), rest), NEVER)
  {
    forall run | run in Seq(Emit(Awaited), rest)
      ensures !Silent(run) && forall site :: !CallsEarly(run, site)
    {
      var a, b :| Follows(Emit(Awaited), OnNormal(rest), a, b) && run == Run(a.trace + b.trace, b.outcome);
      assert run.trace[0] == Awaited;
    }
  }

  lemma CompleteMore(some: Runs, all: Runs, quiet: Quiet)
    requires Complete(some, quiet) && forall run :: run in some ==> run in all
    ensures Complete(all, quiet)
  {
    hide Silent, CallsEarly;
    var run :| run in some;
    assert run in all;
    forall outcome | outcome in quiet.outcomes ensures Ends(all, outcome) { EndsMore(some, all, outcome); }
    forall site | site in quiet.sites ensures Calls(all, site) { CallsMore(some, all, site); }
  }

  lemma SoundMore(runs: Runs, quiet: Quiet, more: Quiet)
    requires Sound(runs, quiet) && quiet.outcomes <= more.outcomes && quiet.sites <= more.sites
    ensures Sound(runs, more)
  {
    hide Silent, CallsEarly;
  }

  // --- loops ---

  ghost predicate PartsExact(parts: LoopParts, q: QParts) {
    && parts.kind == q.kind
    && Exact(parts.head, q.head) && Exact(parts.condition, q.condition) && Exact(parts.step, q.step) && Exact(parts.body, q.body)
    && CanHalt(parts.head) && CanHalt(parts.condition) && CanHalt(parts.body)
  }

  ghost predicate CanHalt(runs: Runs) {
    Run([], Halted) in runs
  }

  lemma SeqSound(first: Runs, rest: Runs, p: Quiet, q: Quiet)
    requires Sound(first, p) && Sound(rest, q)
    ensures Sound(Seq(first, rest), QSeq(p, q))
  {
    hide Sound, Bind, QBind;
    forall o ensures Sound(OnNormal(rest)(o), QOnNormal(q)(o)) { PureSound(o); }
    BindSound(first, OnNormal(rest), p, QOnNormal(q));
  }

  lemma PureSound(outcome: Outcome)
    ensures Sound(Pure(outcome), QPure(outcome)) && Complete(Pure(outcome), QPure(outcome)) && Inhabited(Pure(outcome))
  {
    PureExact(outcome);
    PureRuns(outcome);
  }

  lemma SeqComplete(first: Runs, rest: Runs, p: Quiet, q: Quiet)
    requires Complete(first, p) && Complete(rest, q)
    ensures Complete(Seq(first, rest), QSeq(p, q))
  {
    assert Inhabited(rest);
    hide Complete, Bind, QBind, Inhabited;
    forall o ensures Complete(OnNormal(rest)(o), QOnNormal(q)(o)) && Inhabited(OnNormal(rest)(o)) { PureSound(o); }
    BindComplete(first, OnNormal(rest), p, QOnNormal(q));
  }

  lemma BodySound(body: Runs, again: Runs, p: Quiet, q: Quiet)
    requires Sound(body, p) && Sound(again, q)
    ensures Sound(Bind(body, OnBody(again)), QBind(p, QOnBody(q)))
  {
    hide Sound, Bind, QBind, Pure;
    PureSound(Normal);
    forall o ensures Sound(OnBody(again)(o), QOnBody(q)(o)) { PureSound(o); }
    BindSound(body, OnBody(again), p, QOnBody(q));
  }

  lemma BodyComplete(body: Runs, again: Runs, p: Quiet, q: Quiet)
    requires Complete(body, p) && Complete(again, q)
    ensures Complete(Bind(body, OnBody(again)), QBind(p, QOnBody(q)))
  {
    assert Inhabited(again);
    hide Complete, Bind, QBind, Inhabited, Pure;
    PureSound(Normal);
    forall o ensures Complete(OnBody(again)(o), QOnBody(q)(o)) && Inhabited(OnBody(again)(o)) { PureSound(o); }
    BindComplete(body, OnBody(again), p, QOnBody(q));
  }

  lemma IterationSound(parts: LoopParts, q: QParts, again: Runs, quiet: Quiet)
    requires PartsExact(parts, q) && Sound(again, quiet)
    ensures Sound(Iteration(parts, again), QIteration(q, quiet))
  {
    DoneExact();
    hide Sound, Complete, Seq, Bind, QBind, QSeq, Done;
    match parts.kind {
      case While =>
        BodySound(parts.body, again, q.body, quiet);
        OrSound(Done(), Bind(parts.body, OnBody(again)), QDONE, QBind(q.body, QOnBody(quiet)));
        SeqSound(parts.condition, Done() + Bind(parts.body, OnBody(again)), q.condition, Both(QDONE, QBind(q.body, QOnBody(quiet))));
      case For =>
        SeqSound(parts.step, again, q.step, quiet);
        BodySound(parts.body, Seq(parts.step, again), q.body, QSeq(q.step, quiet));
        OrSound(Done(), Bind(parts.body, OnBody(Seq(parts.step, again))), QDONE, QBind(q.body, QOnBody(QSeq(q.step, quiet))));
        SeqSound(parts.condition, Done() + Bind(parts.body, OnBody(Seq(parts.step, again))), q.condition,
          Both(QDONE, QBind(q.body, QOnBody(QSeq(q.step, quiet)))));
      case DoWhile =>
        OrSound(Done(), again, QDONE, quiet);
        SeqSound(parts.condition, Done() + again, q.condition, Both(QDONE, quiet));
        BodySound(parts.body, Seq(parts.condition, Done() + again), q.body, QSeq(q.condition, Both(QDONE, quiet)));
      case ForEach =>
        BodySound(parts.body, again, q.body, quiet);
        SeqSound(parts.head, Bind(parts.body, OnBody(again)), q.head, QBind(q.body, QOnBody(quiet)));
        OrSound(Done(), Seq(parts.head, Bind(parts.body, OnBody(again))), QDONE, QSeq(q.head, QBind(q.body, QOnBody(quiet))));
    }
  }

  lemma IterationComplete(parts: LoopParts, q: QParts, again: Runs, quiet: Quiet)
    requires PartsExact(parts, q) && Complete(again, quiet)
    ensures Complete(Iteration(parts, again), QIteration(q, quiet))
  {
    DoneExact();
    hide Sound, Complete, Seq, Bind, QBind, QSeq, Done;
    match parts.kind {
      case While =>
        BodyComplete(parts.body, again, q.body, quiet);
        OrComplete(Done(), Bind(parts.body, OnBody(again)), QDONE, QBind(q.body, QOnBody(quiet)));
        SeqComplete(parts.condition, Done() + Bind(parts.body, OnBody(again)), q.condition, Both(QDONE, QBind(q.body, QOnBody(quiet))));
      case For =>
        SeqComplete(parts.step, again, q.step, quiet);
        BodyComplete(parts.body, Seq(parts.step, again), q.body, QSeq(q.step, quiet));
        OrComplete(Done(), Bind(parts.body, OnBody(Seq(parts.step, again))), QDONE, QBind(q.body, QOnBody(QSeq(q.step, quiet))));
        SeqComplete(parts.condition, Done() + Bind(parts.body, OnBody(Seq(parts.step, again))), q.condition,
          Both(QDONE, QBind(q.body, QOnBody(QSeq(q.step, quiet)))));
      case DoWhile =>
        OrComplete(Done(), again, QDONE, quiet);
        SeqComplete(parts.condition, Done() + again, q.condition, Both(QDONE, quiet));
        BodyComplete(parts.body, Seq(parts.condition, Done() + again), q.body, QSeq(q.condition, Both(QDONE, quiet)));
      case ForEach =>
        BodyComplete(parts.body, again, q.body, quiet);
        SeqComplete(parts.head, Bind(parts.body, OnBody(again)), q.head, QBind(q.body, QOnBody(quiet)));
        OrComplete(Done(), Seq(parts.head, Bind(parts.body, OnBody(again))), QDONE, QSeq(q.head, QBind(q.body, QOnBody(quiet))));
    }
  }

  ghost predicate Covers(more: Quiet, less: Quiet) {
    less.outcomes <= more.outcomes && less.sites <= more.sites
  }

  /** What an iteration adds by going on is only what going on adds. */
  lemma BindAdds(p: Quiet, q: Outcome -> Quiet, without: Outcome -> Quiet, extra: Quiet)
    requires forall o :: Covers(Both(without(o), extra), q(o))
    ensures Covers(Both(QBind(p, without), extra), QBind(p, q))
  {
    forall outcome | outcome in QBind(p, q).outcomes ensures outcome in QBind(p, without).outcomes || outcome in extra.outcomes {
      var o :| o in p.outcomes && outcome in q(o).outcomes;
      assert Covers(Both(without(o), extra), q(o));
    }
    forall site | site in QBind(p, q).sites ensures site in QBind(p, without).sites || site in extra.sites {
      if site !in p.sites {
        var o :| o in p.outcomes && site in q(o).sites;
        assert Covers(Both(without(o), extra), q(o));
      }
    }
  }

  lemma SeqAdds(p: Quiet, q: Quiet, without: Quiet, extra: Quiet)
    requires Covers(Both(without, extra), q)
    ensures Covers(Both(QSeq(p, without), extra), QSeq(p, q))
  {
    hide QBind;
    BindAdds(p, QOnNormal(q), QOnNormal(without), extra);
  }

  lemma BodyAdds(p: Quiet, q: Quiet, without: Quiet, extra: Quiet)
    requires Covers(Both(without, extra), q)
    ensures Covers(Both(QBind(p, QOnBody(without)), extra), QBind(p, QOnBody(q)))
  {
    hide QBind;
    BindAdds(p, QOnBody(q), QOnBody(without), extra);
  }

  /** A second iteration adds nothing to the first. */
  lemma LoopStable(q: QParts)
    ensures Covers(QIteration(q, NEVER), QIteration(q, QIteration(q, NEVER)))
  {
    var once := QIteration(q, NEVER);
    IterationAdds(q, once);
    hide QIteration;
  }

  lemma IterationAdds(q: QParts, again: Quiet)
    ensures Covers(Both(QIteration(q, NEVER), again), QIteration(q, again))
  {
    hide QSeq, QBind;
    match q.kind {
      case While =>
        BodyAdds(q.body, again, NEVER, again);
        SeqAdds(q.condition, Both(QDONE, QBind(q.body, QOnBody(again))), Both(QDONE, QBind(q.body, QOnBody(NEVER))), again);
      case For =>
        SeqAdds(q.step, again, NEVER, again);
        BodyAdds(q.body, QSeq(q.step, again), QSeq(q.step, NEVER), again);
        SeqAdds(q.condition, Both(QDONE, QBind(q.body, QOnBody(QSeq(q.step, again)))), Both(QDONE, QBind(q.body, QOnBody(QSeq(q.step, NEVER)))), again);
      case DoWhile =>
        SeqAdds(q.condition, Both(QDONE, again), Both(QDONE, NEVER), again);
        BodyAdds(q.body, QSeq(q.condition, Both(QDONE, again)), QSeq(q.condition, Both(QDONE, NEVER)), again);
      case ForEach =>
        BodyAdds(q.body, again, NEVER, again);
        SeqAdds(q.head, QBind(q.body, QOnBody(again)), QBind(q.body, QOnBody(NEVER)), again);
    }
  }

  lemma {:induction false} IterationsSound(parts: LoopParts, q: QParts, n: nat)
    requires PartsExact(parts, q)
    ensures Sound(Iterations(parts, n), QIteration(q, NEVER))
  {
    hide PartsExact, Iteration, QIteration;
    if n == 0 {
      hide QIteration;
    } else {
      IterationsSound(parts, q, n - 1);
      IterationSound(parts, q, Iterations(parts, n - 1), QIteration(q, NEVER));
      LoopStable(q);
      hide Sound;
      SoundMore(Iterations(parts, n), QIteration(q, QIteration(q, NEVER)), QIteration(q, NEVER));
    }
  }

  lemma AllSound(parts: LoopParts, q: QParts)
    requires PartsExact(parts, q)
    ensures Sound(AllIterations(parts), QIteration(q, NEVER))
  {
    hide PartsExact, Iteration, QIteration, Iterations, Silent, CallsEarly;
    forall run | run in AllIterations(parts)
      ensures Silent(run) ==> run.outcome in QIteration(q, NEVER).outcomes
      ensures forall site :: CallsEarly(run, site) ==> site in QIteration(q, NEVER).sites
    {
      var n: nat :| WithinIterations(parts, n, run);
      IterationsSound(parts, q, n);
    }
  }

  // --- the iterations are closed ---

  lemma SeqFrom(first: Runs, rest: Runs, run: Run) returns (part: Run)
    requires run in Seq(first, rest)
    ensures run in Seq(first, iset{}) || (part in rest && run in Seq(first, iset{part}))
  {
    var a, b :| Follows(first, OnNormal(rest), a, b) && run == Run(a.trace + b.trace, b.outcome);
    part := b;
    if a.outcome == Normal {
      assert Follows(first, OnNormal(iset{b}), a, b);
    } else {
      assert Follows(first, OnNormal(iset{}), a, b);
    }
  }

  lemma BodyFrom(body: Runs, rest: Runs, run: Run) returns (part: Run)
    requires run in Bind(body, OnBody(rest))
    ensures run in Bind(body, OnBody(iset{})) || (part in rest && run in Bind(body, OnBody(iset{part})))
  {
    var a, b :| Follows(body, OnBody(rest), a, b) && run == Run(a.trace + b.trace, b.outcome);
    part := b;
    if a.outcome == Normal || a.outcome == Continued {
      assert Follows(body, OnBody(iset{b}), a, b);
    } else {
      assert Follows(body, OnBody(iset{}), a, b);
    }
  }

  lemma SeqInto(first: Runs, some: Runs, all: Runs, run: Run)
    requires run in Seq(first, some) && forall r :: r in some ==> r in all
    ensures run in Seq(first, all)
  {
    var a, b :| Follows(first, OnNormal(some), a, b) && run == Run(a.trace + b.trace, b.outcome);
    assert Follows(first, OnNormal(all), a, b);
  }

  lemma BodyInto(body: Runs, some: Runs, all: Runs, run: Run)
    requires run in Bind(body, OnBody(some)) && forall r :: r in some ==> r in all
    ensures run in Bind(body, OnBody(all))
  {
    var a, b :| Follows(body, OnBody(some), a, b) && run == Run(a.trace + b.trace, b.outcome);
    assert Follows(body, OnBody(all), a, b);
  }

  /** A run of an iteration goes on with at most one run of the rest. */
  lemma IterationFrom(parts: LoopParts, again: Runs, run: Run) returns (part: Run)
    requires run in Iteration(parts, again)
    ensures run in Iteration(parts, iset{}) || (part in again && run in Iteration(parts, iset{part}))
  {
    part := run;
    hide Seq, Bind;
    match parts.kind {
      case While =>
        var k := SeqFrom(parts.condition, Done() + Bind(parts.body, OnBody(again)), run);
        if run !in Seq(parts.condition, iset{}) && k !in Done() {
          part := BodyFrom(parts.body, again, k);
        }
        WhileFrom(parts, again, run, k, part);
      case For =>
        var k := SeqFrom(parts.condition, Done() + Bind(parts.body, OnBody(Seq(parts.step, again))), run);
        var m := k;
        if run !in Seq(parts.condition, iset{}) && k !in Done() {
          m := BodyFrom(parts.body, Seq(parts.step, again), k);
          if k !in Bind(parts.body, OnBody(iset{})) { part := SeqFrom(parts.step, again, m); }
        }
        ForFrom(parts, again, run, k, m, part);
      case DoWhile =>
        var k := BodyFrom(parts.body, Seq(parts.condition, Done() + again), run);
        if run !in Bind(parts.body, OnBody(iset{})) { part := SeqFrom(parts.condition, Done() + again, k); }
        DoFrom(parts, again, run, k, part);
      case ForEach =>
        if run !in Done() {
          var k := SeqFrom(parts.head, Bind(parts.body, OnBody(again)), run);
          if run !in Seq(parts.head, iset{}) { part := BodyFrom(parts.body, again, k); }
          EachFrom(parts, again, run, k, part);
        }
    }
  }

  lemma WhileFrom(parts: LoopParts, again: Runs, run: Run, k: Run, part: Run)
    requires parts.kind == While
    requires run in Seq(parts.condition, iset{}) || (run in Seq(parts.condition, iset{k}) && (k in Done()
      || k in Bind(parts.body, OnBody(iset{})) || (part in again && k in Bind(parts.body, OnBody(iset{part})))))
    ensures run in Iteration(parts, iset{}) || (part in again && run in Iteration(parts, iset{part}))
  {
    hide Seq, Bind, Done;
    var nothing: Runs := iset{};
    if run in Seq(parts.condition, iset{}) {
      SeqInto(parts.condition, iset{}, Done() + Bind(parts.body, OnBody(nothing)), run);
    } else if k in Done() || k in Bind(parts.body, OnBody(iset{})) {
      SeqInto(parts.condition, iset{k}, Done() + Bind(parts.body, OnBody(nothing)), run);
    } else {
      SeqInto(parts.condition, iset{k}, Done() + Bind(parts.body, OnBody(iset{part})), run);
    }
  }

  lemma ForFrom(parts: LoopParts, again: Runs, run: Run, k: Run, m: Run, part: Run)
    requires parts.kind == For
    requires run in Seq(parts.condition, iset{}) || (run in Seq(parts.condition, iset{k}) && (k in Done()
      || k in Bind(parts.body, OnBody(iset{}))
      || (k in Bind(parts.body, OnBody(iset{m})) && (m in Seq(parts.step, iset{}) || (part in again && m in Seq(parts.step, iset{part}))))))
    ensures run in Iteration(parts, iset{}) || (part in again && run in Iteration(parts, iset{part}))
  {
    hide Seq, Bind, Done;
    var nothing: Runs := iset{};
    var ended := Done() + Bind(parts.body, OnBody(Seq(parts.step, nothing)));
    if run in Seq(parts.condition, iset{}) {
      SeqInto(parts.condition, iset{}, ended, run);
    } else if k in Done() {
      SeqInto(parts.condition, iset{k}, ended, run);
    } else if k in Bind(parts.body, OnBody(iset{})) {
      BodyInto(parts.body, iset{}, Seq(parts.step, nothing), k);
      SeqInto(parts.condition, iset{k}, ended, run);
    } else if m in Seq(parts.step, iset{}) {
      BodyInto(parts.body, iset{m}, Seq(parts.step, nothing), k);
      SeqInto(parts.condition, iset{k}, ended, run);
    } else {
      BodyInto(parts.body, iset{m}, Seq(parts.step, iset{part}), k);
      SeqInto(parts.condition, iset{k}, Done() + Bind(parts.body, OnBody(Seq(parts.step, iset{part}))), run);
    }
  }

  lemma DoFrom(parts: LoopParts, again: Runs, run: Run, k: Run, part: Run)
    requires parts.kind == DoWhile
    requires run in Bind(parts.body, OnBody(iset{})) || (run in Bind(parts.body, OnBody(iset{k}))
      && (k in Seq(parts.condition, iset{}) || (k in Seq(parts.condition, iset{part}) && part in Done() + again)))
    ensures run in Iteration(parts, iset{}) || (part in again && run in Iteration(parts, iset{part}))
  {
    hide Seq, Bind, Done;
    var nothing: Runs := iset{};
    var ended := Seq(parts.condition, Done() + nothing);
    if run in Bind(parts.body, OnBody(iset{})) {
      BodyInto(parts.body, iset{}, ended, run);
    } else if k in Seq(parts.condition, iset{}) {
      SeqInto(parts.condition, iset{}, Done() + nothing, k);
      BodyInto(parts.body, iset{k}, ended, run);
    } else if part in Done() {
      SeqInto(parts.condition, iset{part}, Done() + nothing, k);
      BodyInto(parts.body, iset{k}, ended, run);
    } else {
      SeqInto(parts.condition, iset{part}, Done() + iset{part}, k);
      BodyInto(parts.body, iset{k}, Seq(parts.condition, Done() + iset{part}), run);
    }
  }

  lemma EachFrom(parts: LoopParts, again: Runs, run: Run, k: Run, part: Run)
    requires parts.kind == ForEach
    requires run in Seq(parts.head, iset{}) || (run in Seq(parts.head, iset{k})
      && (k in Bind(parts.body, OnBody(iset{})) || (part in again && k in Bind(parts.body, OnBody(iset{part})))))
    ensures run in Iteration(parts, iset{}) || (part in again && run in Iteration(parts, iset{part}))
  {
    hide Seq, Bind, Done;
    var nothing: Runs := iset{};
    if run in Seq(parts.head, iset{}) {
      SeqInto(parts.head, iset{}, Bind(parts.body, OnBody(nothing)), run);
    } else if k in Bind(parts.body, OnBody(iset{})) {
      SeqInto(parts.head, iset{k}, Bind(parts.body, OnBody(nothing)), run);
    } else {
      SeqInto(parts.head, iset{k}, Bind(parts.body, OnBody(iset{part})), run);
    }
  }

  lemma IterationInto(parts: LoopParts, some: Runs, all: Runs, run: Run)
    requires run in Iteration(parts, some) && forall r :: r in some ==> r in all
    ensures run in Iteration(parts, all)
  {
    hide Seq, Bind, Done;
    match parts.kind {
      case While =>
        forall r | r in Bind(parts.body, OnBody(some)) ensures r in Bind(parts.body, OnBody(all)) { BodyInto(parts.body, some, all, r); }
        SeqInto(parts.condition, Done() + Bind(parts.body, OnBody(some)), Done() + Bind(parts.body, OnBody(all)), run);
      case For =>
        forall r | r in Seq(parts.step, some) ensures r in Seq(parts.step, all) { SeqInto(parts.step, some, all, r); }
        var before, after := Seq(parts.step, some), Seq(parts.step, all);
        forall r | r in Bind(parts.body, OnBody(before)) ensures r in Bind(parts.body, OnBody(after)) { BodyInto(parts.body, before, after, r); }
        SeqInto(parts.condition, Done() + Bind(parts.body, OnBody(before)), Done() + Bind(parts.body, OnBody(after)), run);
      case DoWhile =>
        var before, after := Seq(parts.condition, Done() + some), Seq(parts.condition, Done() + all);
        forall r | r in before ensures r in after { SeqInto(parts.condition, Done() + some, Done() + all, r); }
        BodyInto(parts.body, before, after, run);
      case ForEach =>
        forall r | r in Bind(parts.body, OnBody(some)) ensures r in Bind(parts.body, OnBody(all)) { BodyInto(parts.body, some, all, r); }
        if run !in Done() { SeqInto(parts.head, Bind(parts.body, OnBody(some)), Bind(parts.body, OnBody(all)), run); }
    }
  }

  /** Going round once more stays among the iterations. */
  lemma AllClosed(parts: LoopParts, run: Run)
    requires run in Iteration(parts, AllIterations(parts))
    ensures run in AllIterations(parts)
  {
    var part := IterationFrom(parts, AllIterations(parts), run);
    hide Iteration;
    var nothing: Runs := iset{};
    if run in Iteration(parts, nothing) {
      assert Iterations(parts, 0) == nothing && Iterations(parts, 1) == Iteration(parts, Iterations(parts, 0));
      assert WithinIterations(parts, 1, run);
    } else {
      var n: nat :| WithinIterations(parts, n, part);
      IterationInto(parts, iset{part}, Iterations(parts, n), run);
      assert WithinIterations(parts, n + 1, run);
    }
  }

  lemma HaltsSeq(first: Runs, rest: Runs)
    requires CanHalt(first)
    ensures CanHalt(Seq(first, rest))
  {
    var run := Run([], Halted);
    assert run in OnNormal(rest)(Halted);
    InBindIs(first, OnNormal(rest), run, run);
    assert run.trace + run.trace == [];
    hide Bind;
  }

  lemma AllInhabited(parts: LoopParts)
    requires CanHalt(parts.condition) && CanHalt(parts.body)
    ensures Inhabited(AllIterations(parts))
  {
    var halted, all := Run([], Halted), AllIterations(parts);
    hide Seq, Bind, AllIterations;
    match parts.kind {
      case While =>
        HaltsSeq(parts.condition, Done() + Bind(parts.body, OnBody(all)));
        AllClosed(parts, halted);
      case For =>
        HaltsSeq(parts.condition, Done() + Bind(parts.body, OnBody(Seq(parts.step, all))));
        AllClosed(parts, halted);
      case DoWhile =>
        HaltsBody(parts.body, Seq(parts.condition, Done() + all));
        AllClosed(parts, halted);
      case ForEach =>
        assert Run([], Normal) in Done();
        AllClosed(parts, Run([], Normal));
    }
  }

  lemma HaltsBody(body: Runs, again: Runs)
    requires CanHalt(body)
    ensures CanHalt(Bind(body, OnBody(again)))
  {
    var run := Run([], Halted);
    assert run in OnBody(again)(Halted);
    InBindIs(body, OnBody(again), run, run);
    assert run.trace + run.trace == [];
    hide Bind;
  }

  lemma AllComplete(parts: LoopParts, q: QParts)
    requires PartsExact(parts, q)
    ensures Complete(AllIterations(parts), QIteration(q, NEVER))
  {
    var all := AllIterations(parts);
    AllInhabited(parts);
    assert Complete(all, NEVER);
    hide Complete, Sound, Iteration, QIteration, AllIterations, Inhabited;
    IterationComplete(parts, q, all, NEVER);
    forall run | run in Iteration(parts, all) ensures run in all { AllClosed(parts, run); }
    CompleteMore(Iteration(parts, all), all, QIteration(q, NEVER));
  }

  lemma LoopExact(parts: LoopParts, q: QParts)
    requires PartsExact(parts, q)
    ensures Exact(ExecLoop(parts), ReachLoop(q))
  {
    AllSound(parts, q);
    AllComplete(parts, q);
    hide Sound, Complete, Seq, QSeq, AllIterations, QIteration;
    match parts.kind {
      case While =>
      case DoWhile =>
      case For => SeqExact(parts.head, AllIterations(parts), q.head, QIteration(q, NEVER));
      case ForEach => SeqExact(parts.condition, AllIterations(parts), q.condition, QIteration(q, NEVER));
    }
  }
}
