/** The client's update loop over a producer that may die at any exchange
(crates/typefacts/src/session.rs:818-940, 1495-1519). */
module ReplaySessions {
  import opened SortedRows
  import opened Facts
  import opened ReplayLogs

  /** What becomes of one spawn, send or exchange. */
  datatype Fate = Answered | Refused | Died

  datatype Outcome = Done | ServiceError | TransportFailure | Closed

  /** A live producer, one that is gone but whose pipe is still held, or none. */
  datatype Connection = NotConnected | Dead | Live(producer: Producer)

  /** What an exchange touches. When the fates run out, everything is answered. */
  datatype Line = Line(generation: nat, connection: Connection, fates: seq<Fate>)

  datatype Step = Step(outcome: Outcome, line: Line)

  // --- what each call does ---

  function NextFate(fates: seq<Fate>): Fate {
    if fates == [] then Answered else fates[0]
  }

  function Later(fates: seq<Fate>): seq<Fate> {
    if fates == [] then [] else fates[1..]
  }

  /** One update request, answered, refused or cut. */
  function Exchanged(line: Line, changes: Batch): Step {
    match line.connection
    case NotConnected => Step(Closed, line)
    case Dead => Step(TransportFailure, line)
    case Live(producer) =>
      var after := line.(fates := Later(line.fates));
      match NextFate(line.fates)
      case Answered => Step(Done, after.(connection := Live(Updated(producer, changes))))
      case Refused => Step(ServiceError, after)
      case Died => Step(TransportFailure, after.(connection := Dead))
  }

  /** The loop of `restart_and_replay`: a batch that is not answered ends it where it stands. */
  function ReplayedFrom(line: Line, batches: seq<Batch>): Step
    decreases batches
  {
    if batches == [] then Step(Done, line)
    else
      var first := Exchanged(line, batches[0]);
      if first.outcome != Done then first
      else ReplayedFrom(first.line.(generation := first.line.generation + 1), batches[1..])
  }

  /** `restart_and_replay`: spawn, open, replay. */
  function Restarted(line: Line, batches: seq<Batch>): Step {
    var spawned := Later(line.fates);
    if NextFate(line.fates) != Answered then Step(TransportFailure, line.(connection := NotConnected, fates := spawned))
    else
      var ready := Later(spawned);
      match NextFate(spawned)
      case Answered => ReplayedFrom(Line(1, Live(Opened), ready), batches)
      case Refused => Step(ServiceError, Line(1, Live(Opened), ready))
      case Died => Step(TransportFailure, Line(1, Dead, ready))
  }

  /** `finish_update`: the acknowledgement, or one restart and one retry. */
  function Finished(line: Line, batches: seq<Batch>, changes: Batch): Step {
    var first := Exchanged(line, changes);
    if first.outcome == Done then Step(Done, first.line.(generation := first.line.generation + 1))
    else if first.outcome != TransportFailure then first
    else
      var again := Restarted(first.line, batches);
      if again.outcome != Done then again
      else
        var second := Exchanged(again.line, changes);
        if second.outcome == Done then Step(Done, second.line.(generation := second.line.generation + 1)) else second
  }

  /** `send_once`: the write itself may find the producer gone. */
  function Sent(line: Line): Step {
    match line.connection
    case NotConnected => Step(Closed, line)
    case Dead => Step(TransportFailure, line)
    case Live(_) =>
      if NextFate(line.fates) == Died then Step(TransportFailure, line.(connection := Dead, fates := Later(line.fates)))
      else Step(Done, line.(fates := Later(line.fates)))
  }

  lemma {:induction false} RestartedUses(line: Line, batches: seq<Batch>)
    ensures var step := Restarted(line, batches);
      |step.line.fates| <= |line.fates| && (step.outcome == Done ==> step.line.connection.Live?)
  {
    if NextFate(line.fates) == Answered && NextFate(Later(line.fates)) == Answered {
      ReplayUses(Line(1, Live(Opened), Later(Later(line.fates))), batches);
    }
  }

  lemma {:induction false} ReplayUses(line: Line, batches: seq<Batch>)
    requires line.connection.Live?
    ensures var step := ReplayedFrom(line, batches);
      |step.line.fates| <= |line.fates| && (step.outcome == Done ==> step.line.connection.Live?)
    decreases batches
  {
    if batches != [] && Exchanged(line, batches[0]).outcome == Done {
      var first := Exchanged(line, batches[0]);
      ReplayUses(first.line.(generation := first.line.generation + 1), batches[1..]);
    }
  }

  /** `update`, and `update_during` around its caller's work: when the send fails, recover and start over. */
  function Update(line: Line, batches: seq<Batch>, changes: Batch): Step
    decreases |line.fates|, if line.connection.Dead? then 1 else 0
  {
    if changes == [] then Step(Done, line)
    else
      var sent := Sent(line);
      if sent.outcome == Closed then Step(Closed, line)
      else if sent.outcome == Done then Finished(sent.line, batches, changes)
      else
        RestartedUses(sent.line, batches);
        var again := Restarted(sent.line, batches);
        if again.outcome != Done then again else Update(again.line, batches, changes)
  }

  // --- what every run keeps ---

  /** A live producer is at the client's generation, never past the accepted updates; where it is level
  with them, rising versions make it hold the overlays of them all. */
  ghost predicate InStep(line: Line, history: seq<Batch>) {
    line.connection.Live? ==>
      && line.connection.producer.generation == line.generation <= 1 + |history|
      && (line.generation == 1 + |history| && Rising(history) ==> line.connection.producer == Run(Opened, history))
  }

  /** The client can tell: a live producer holds the whole history exactly when the generation is one
  past the number of batches. */
  lemma InStepIff(line: Line, history: seq<Batch>, batches: seq<Batch>, index: map<Path, nat>)
    requires LogFormed(history, batches, index) && InStep(line, history) && line.connection.Live? && Rising(history)
    ensures line.connection.producer == Run(Opened, history) <==> line.generation == 1 + |batches|
  {
    LogLength(history, batches, index);
    RunAt(history, "");
    hide LogFormed, Rising, Run;
  }

  lemma {:induction false} ReplayInStep(line: Line, batches: seq<Batch>, i: nat)
    requires i <= |batches| && line.generation == 1 + i && line.connection == Live(Run(Opened, batches[..i]))
    ensures var step := ReplayedFrom(line, batches[i..]);
      && (step.line.connection.Live? ==> step.line.connection.producer.generation == step.line.generation <= 1 + |batches|)
      && (step.outcome == Done <==> step.line.connection.Live? && step.line.generation == 1 + |batches|)
      && (step.outcome == Done ==> step.line.connection.producer == Run(Opened, batches))
    decreases |batches| - i
  {
    hide Run;
    RunAt(batches[..i], "");
    if i < |batches| {
      RunStep(batches, i);
      var first := Exchanged(line, batches[i..][0]);
      if first.outcome == Done {
        assert batches[i..][1..] == batches[i + 1..];
        ReplayInStep(first.line.(generation := first.line.generation + 1), batches, i + 1);
      }
    } else {
      assert batches[..i] == batches && batches[i..] == [];
    }
  }

  /** After a restart the client is level with the history exactly if every batch was answered. */
  lemma RestartInStep(line: Line, history: seq<Batch>, batches: seq<Batch>, index: map<Path, nat>)
    requires LogFormed(history, batches, index)
    ensures var step := Restarted(line, batches);
      && InStep(step.line, history)
      && (step.outcome == Done ==> step.line.connection.Live? && step.line.generation == 1 + |history|)
  {
    hide LogFormed, Run, Rising, ReplayedFrom;
    LogLength(history, batches, index);
    ReplayReachesHistory(history, batches, index);
    RunNone();
    assert batches[..0] == [] && batches[0..] == batches;
    ReplayInStep(Line(1, Live(Opened), Later(Later(line.fates))), batches, 0);
    RunAt(history, "");
    if batches == [] { assert history == []; }
  }

  /** One exchange that is answered keeps the producer in step with one more accepted batch. */
  lemma ExchangeInStep(line: Line, history: seq<Batch>, changes: Batch)
    requires InStep(line, history)
    ensures var step := Exchanged(line, changes);
      && (step.outcome != Done ==> InStep(step.line, history))
      && (step.outcome == Done ==> InStep(step.line.(generation := step.line.generation + 1), history + [changes]))
      && (step.outcome == Done ==> step.line.generation == line.generation && step.line.connection.Live?)
  {
    AcceptedStep(history, changes);
    hide Run, Rising, AcceptAll;
  }

  ghost predicate Kept(step: Step, line: Line, history: seq<Batch>, changes: Batch) {
    if step.outcome == Done then
      && InStep(step.line, history + [changes]) && step.line.connection.Live?
      && (step.line.generation == line.generation + 1 || step.line.generation == 2 + |history|)
    else InStep(step.line, history)
  }

  lemma FinishedKept(line: Line, history: seq<Batch>, batches: seq<Batch>, index: map<Path, nat>, changes: Batch)
    requires LogFormed(history, batches, index) && InStep(line, history)
    ensures Kept(Finished(line, batches, changes), line, history, changes)
    ensures Finished(line, batches, changes).outcome == Done && Exchanged(line, changes).outcome == Done ==>
      Finished(line, batches, changes).line.generation == line.generation + 1
  {
    hide LogFormed, Exchanged, Restarted, InStep;
    var first := Exchanged(line, changes);
    ExchangeInStep(line, history, changes);
    if first.outcome == TransportFailure {
      RestartInStep(first.line, history, batches, index);
      ExchangeInStep(Restarted(first.line, batches).line, history, changes);
    }
  }

  /** Whatever dies on the way, an update is accepted once or not at all, and an accepted one leaves the
  client one generation on, or level with the whole history after a restart. */
  lemma {:induction false} UpdateKept(line: Line, history: seq<Batch>, batches: seq<Batch>, index: map<Path, nat>, changes: Batch)
    requires LogFormed(history, batches, index) && InStep(line, history) && changes != []
    ensures Kept(Update(line, batches, changes), line, history, changes)
    decreases |line.fates|, if line.connection.Dead? then 1 else 0
  {
    hide LogFormed, Finished, Restarted, Rising, Run;
    var sent := Sent(line);
    if sent.outcome == Done {
      FinishedKept(sent.line, history, batches, index, changes);
    } else if sent.outcome == TransportFailure {
      RestartInStep(sent.line, history, batches, index);
      RestartedUses(sent.line, batches);
      var again := Restarted(sent.line, batches);
      if again.outcome == Done {
        UpdateKept(again.line, history, batches, index, changes);
      }
    }
  }

  /** With nothing dying, an accepted update advances exactly one generation. */
  lemma CalmUpdateAdvances(line: Line, batches: seq<Batch>, changes: Batch)
    requires changes != [] && line.connection.Live? && NextFate(line.fates) != Died && NextFate(Later(line.fates)) == Answered
    ensures Update(line, batches, changes)
         == Step(Done, Line(line.generation + 1, Live(Updated(line.connection.producer, changes)), Later(Later(line.fates))))
  {
  }

  /** The one way to fall behind: a replayed batch is refused. The call fails, but the connection stays
  open at the generation reached, the next update is accepted, and the producer lacks what was not replayed. */
  lemma RefusedReplayLosesUpdates(a: Change, b: Change, c: Change)
    requires a.path != c.path
    ensures var first := Update(Line(2, Live(Run(Opened, [[a]])), [Died, Answered, Answered, Refused]), [[a]], [b]);
      && first == Step(ServiceError, Line(1, Live(Opened), []))
      && Update(first.line, [[a]], [c]) == Step(Done, Line(2, Live(Updated(Opened, [c])), []))
      && a.path !in Updated(Opened, [c]).overlays && a.path in Run(Opened, [[a], [c]]).overlays
  {
    var dead := Line(2, Dead, [Answered, Answered, Refused]);
    var fates := [Died, Answered, Answered, Refused];
    assert fates[1..] == [Answered, Answered, Refused] && fates[1..][1..] == [Answered, Refused] && fates[1..][1..][1..] == [Refused];
    assert [Refused][1..] == [];
    assert Restarted(dead, [[a]]) == Step(ServiceError, Line(1, Live(Opened), []));
    CalmUpdateAdvances(Line(1, Live(Opened), []), [[a]], [c]);
    OneChange(map[], c);
    OneChange(map[], a);
    TwoBatches([a], [c]);
    OneChange(map[a.path := a.overlay], c);
    hide Run, AcceptAll;
  }

  // --- the session ---

  class ReplaySession {
    var generation: nat
    var batches: seq<Batch>
    var index: map<Path, nat>
    var connection: Connection
    var fates: seq<Fate>
    ghost var history: seq<Batch>

    ghost function TheLine(): Line
      reads this
    {
      Line(generation, connection, fates)
    }

    ghost predicate Valid()
      reads this
    {
      LogFormed(history, batches, index) && InStep(TheLine(), history)
    }

    /** Just opened: the producer has the sources on disk and no overlay. */
    constructor (fates: seq<Fate>)
      ensures Valid() && history == [] && TheLine() == Line(1, Live(Opened), fates)
    {
      LogStart();
      RunNone();
      this.fates := fates;
      generation, batches, index, connection, history := 1, [], map[], Live(Opened), [];
    }

    method TakeFate() returns (fate: Fate)
      modifies this`fates
      ensures fate == NextFate(old(fates)) && fates == Later(old(fates))
    {
      if fates == [] { return Answered; }
      fate := fates[0];
      fates := fates[1..];
    }

    method ExchangeUpdate(changes: Batch) returns (outcome: Outcome)
      modifies this`fates, this`connection
      ensures Step(outcome, TheLine()) == Exchanged(old(TheLine()), changes)
    {
      match connection {
        case NotConnected => outcome := Closed;
        case Dead => outcome := TransportFailure;
        case Live(producer) =>
          var fate := TakeFate();
          match fate {
            case Answered => outcome, connection := Done, Live(Updated(producer, changes));
            case Refused => outcome := ServiceError;
            case Died => outcome, connection := TransportFailure, Dead;
          }
      }
    }

    /** `restart_and_replay`. */
    method RestartAndReplay() returns (outcome: Outcome)
      modifies this`fates, this`connection, this`generation
      ensures Step(outcome, TheLine()) == Restarted(old(TheLine()), batches)
    {
      hide Exchanged;
      var spawned := TakeFate();
      if spawned != Answered {
        connection := NotConnected;
        return TransportFailure;
      }
      connection, generation := Live(Opened), 1;
      var openFate := TakeFate();
      if openFate == Refused { return ServiceError; }
      if openFate == Died {
        connection := Dead;
        return TransportFailure;
      }
      ghost var ready := TheLine();
      assert batches[0..] == batches;
      for i := 0 to |batches|
        invariant batches == old(batches)
        invariant ReplayedFrom(TheLine(), batches[i..]) == ReplayedFrom(ready, batches)
      {
        assert batches[i..][0] == batches[i] && batches[i..][1..] == batches[i + 1..];
        outcome := ExchangeUpdate(batches[i]);
        if outcome != Done { return; }
        generation := generation + 1;
      }
      outcome := Done;
    }

    /** `supersede_replayed_overlays` and the push: the log of one more accepted update. */
    method Commit(changes: Batch)
      requires LogFormed(history, batches, index)
      modifies this`generation, this`batches, this`index, this`history
      ensures LogFormed(history, batches, index) && history == old(history) + [changes] && generation == old(generation) + 1
    {
      hide *;
      generation := generation + 1;
      SupersedeStart(history, batches, index, changes);
      var next := |batches|;
      for i := 0 to |changes|
        invariant next == |batches| == |history| && history == old(history) && generation == old(generation) + 1
        invariant Superseding(history, batches, index, changes, i)
      {
        var path := changes[i].path;
        SupersedeStep(history, batches, index, changes, i);
        var previous := if path in index then index[path] else next;
        index := index[path := next];
        if previous < |batches| {
          batches := batches[previous := Without(batches[previous], path)];
        }
      }
      SupersedeEnd(history, batches, index, changes);
      batches := batches + [changes];
      history := history + [changes];
    }

    /** `send_once`. */
    method Send() returns (outcome: Outcome)
      modifies this`fates, this`connection
      ensures Step(outcome, TheLine()) == Sent(old(TheLine()))
    {
      match connection {
        case NotConnected => outcome := Closed;
        case Dead => outcome := TransportFailure;
        case Live(producer) =>
          outcome := Done;
          var fate := TakeFate();
          if fate == Died { outcome, connection := TransportFailure, Dead; }
      }
    }

    method FinishUpdate(changes: Batch) returns (outcome: Outcome)
      requires LogFormed(history, batches, index)
      modifies this
      ensures Step(outcome, TheLine()) == Finished(old(TheLine()), old(batches), changes)
      ensures LogFormed(history, batches, index)
      ensures history == if outcome == Done then old(history) + [changes] else old(history)
      ensures outcome != Done ==> batches == old(batches) && index == old(index)
    {
      hide LogFormed, Exchanged, Restarted;
      outcome := ExchangeUpdate(changes);
      if outcome == TransportFailure {
        outcome := RestartAndReplay();
        if outcome != Done { return; }
        outcome := ExchangeUpdate(changes);
      }
      if outcome == Done { Commit(changes); }
    }

    method UpdateDuring(changes: Batch) returns (outcome: Outcome)
      requires Valid()
      modifies this
      ensures Valid() && Step(outcome, TheLine()) == Update(old(TheLine()), old(batches), changes)
      ensures history == if outcome == Done && changes != [] then old(history) + [changes] else old(history)
      ensures outcome == Done && changes != [] ==> connection.Live?
      ensures outcome == Done && changes != [] ==> generation == old(generation) + 1 || generation == 1 + |batches|
    {
      if changes != [] { UpdateKept(TheLine(), history, batches, index, changes); }
      hide LogFormed, InStep, Update, Finished, Sent, Restarted;
      outcome := RunUpdate(changes);
      LogLength(history, batches, index);
    }

    method RunUpdate(changes: Batch) returns (outcome: Outcome)
      requires LogFormed(history, batches, index)
      modifies this
      ensures Step(outcome, TheLine()) == Update(old(TheLine()), old(batches), changes)
      ensures LogFormed(history, batches, index)
      ensures history == if outcome == Done && changes != [] then old(history) + [changes] else old(history)
      decreases |fates|, if connection.Dead? then 1 else 0
    {
      hide LogFormed, Finished, Restarted;
      if changes == [] { return Done; }
      ghost var start := TheLine();
      var sent := Send();
      if sent == Closed {
        outcome := Closed;
      } else if sent == Done {
        outcome := FinishUpdate(changes);
      } else {
        RestartedUses(TheLine(), batches);
        outcome := RestartAndReplay();
        if outcome != Done { return; }
        outcome := RunUpdate(changes);
      }
    }
  }

  lemma RunNone()
    ensures Run(Opened, []) == Opened
  {
  }

  lemma RunStep(batches: seq<Batch>, i: nat)
    requires i < |batches|
    ensures batches[..0] == []
    ensures Run(Opened, batches[..i + 1]) == Updated(Run(Opened, batches[..i]), batches[i])
  {
    assert batches[..i + 1] == batches[..i] + [batches[i]];
    RunNext(batches[..i], batches[i]);
  }

  lemma LogLength(history: seq<Batch>, batches: seq<Batch>, index: map<Path, nat>)
    requires LogFormed(history, batches, index)
    ensures |batches| == |history|
  {
  }

  lemma AcceptedStep(history: seq<Batch>, changes: Batch)
    ensures Run(Opened, history + [changes]) == Updated(Run(Opened, history), changes)
    ensures Rising(history + [changes]) ==> Rising(history)
  {
    RunNext(history, changes);
    var all := history + [changes];
    if Rising(all) {
      forall j, k, a, b | 0 <= j < k < |history| && 0 <= a < |history[j]| && 0 <= b < |history[k]| && history[j][a].path == history[k][b].path
        ensures history[j][a].overlay.version < history[k][b].overlay.version
      {
        assert all[j][a].path == all[k][b].path;
      }
    }
  }

  // --- the superseding loop ---

  /** The paths of the first `i` changes have moved to the batch being written. */
  ghost predicate Superseding(history: seq<Batch>, batches: seq<Batch>, index: map<Path, nat>, changes: Batch, i: nat) {
    && i <= |changes| && |batches| == |history|
    && forall path :: PathSuperseding(history, batches, index, changes[..i], path)
  }

  ghost predicate PathSuperseding(history: seq<Batch>, batches: seq<Batch>, index: map<Path, nat>, done: Batch, path: Path)
    requires |batches| == |history|
  {
    if Names(done, path) then
      path in index && index[path] == |history| && forall k :: 0 <= k < |batches| ==> !Names(batches[k], path)
    else
      && (path in index ==> NewestAt(history, path, index[path]))
      && (forall k :: 0 <= k < |history| && Names(history[k], path) ==> path in index)
      && (forall k :: 0 <= k < |batches| ==> KeepsNewest(history, batches, index, path, k))
  }

  lemma SupersedeStart(history: seq<Batch>, batches: seq<Batch>, index: map<Path, nat>, changes: Batch)
    requires LogFormed(history, batches, index)
    ensures |batches| == |history| && Superseding(history, batches, index, changes, 0)
  {
    hide KeepsNewest, NewestAt;
  }

  lemma SupersedeStep(history: seq<Batch>, batches: seq<Batch>, index: map<Path, nat>, changes: Batch, i: nat)
    requires Superseding(history, batches, index, changes, i) && i < |changes|
    ensures var path := changes[i].path;
      var previous := if path in index then index[path] else |batches|;
      Superseding(history, if previous < |batches| then batches[previous := Without(batches[previous], path)] else batches,
        index[path := |batches|], changes, i + 1)
  {
    var path := changes[i].path;
    var previous := if path in index then index[path] else |batches|;
    var next := if previous < |batches| then batches[previous := Without(batches[previous], path)] else batches;
    assert changes[..i + 1] == changes[..i] + [changes[i]];
    hide Names, Fold, CountPath, Without;
    var moved, done := index[path := |batches|], changes[..i + 1];
    forall other ensures PathSuperseding(history, next, moved, done, other) {
      NamesAppended(changes[..i], changes[i], other);
      assert PathSuperseding(history, batches, index, changes[..i], other);
      if other == path {
        PathGone(history, batches, index, changes[..i], path);
      } else {
        OthersKept(history, batches, index, changes[..i], path, other);
      }
    }
  }

  lemma PathGone(history: seq<Batch>, batches: seq<Batch>, index: map<Path, nat>, done: Batch, path: Path)
    requires |batches| == |history| && PathSuperseding(history, batches, index, done, path)
    ensures var previous := if path in index then index[path] else |batches|;
      var next := if previous < |batches| then batches[previous := Without(batches[previous], path)] else batches;
      forall k :: 0 <= k < |next| ==> !Names(next[k], path)
  {
    hide Names, Fold, CountPath, Without;
    if path in index && index[path] < |batches| {
      WithoutMeaning(batches[index[path]], path, path);
    }
    forall k | 0 <= k < |batches| && (path !in index || k != index[path]) ensures !Names(batches[k], path) {
      if !Names(done, path) { assert KeepsNewest(history, batches, index, path, k); }
    }
  }

  lemma OthersKept(history: seq<Batch>, batches: seq<Batch>, index: map<Path, nat>, done: Batch, path: Path, other: Path)
    requires |batches| == |history| && PathSuperseding(history, batches, index, done, other) && other != path
    ensures var previous := if path in index then index[path] else |batches|;
      var next := if previous < |batches| then batches[previous := Without(batches[previous], path)] else batches;
      PathSuperseding(history, next, index[path := |batches|], done, other)
  {
    hide Names, Fold, CountPath, Without;
    var previous := if path in index then index[path] else |batches|;
    var next := if previous < |batches| then batches[previous := Without(batches[previous], path)] else batches;
    if previous < |batches| {
      WithoutMeaning(batches[previous], path, other);
    }
    if !Names(done, other) {
      var moved := index[path := |batches|];
      forall k | 0 <= k < |next| ensures KeepsNewest(history, next, moved, other, k) {
        assert KeepsNewest(history, batches, index, other, k);
      }
    }
  }

  lemma SupersedeEnd(history: seq<Batch>, batches: seq<Batch>, index: map<Path, nat>, changes: Batch)
    requires Superseding(history, batches, index, changes, |changes|)
    ensures LogFormed(history + [changes], batches + [changes], index)
  {
    var all, kept := history + [changes], batches + [changes];
    assert changes[..|changes|] == changes;
    hide Names, Fold, CountPath;
    forall path
      ensures path in index ==> NewestAt(all, path, index[path])
      ensures forall k :: 0 <= k < |all| && Names(all[k], path) ==> path in index
      ensures forall k :: 0 <= k < |kept| ==> KeepsNewest(all, kept, index, path, k)
    {
      assert PathSuperseding(history, batches, index, changes, path);
      PathAppended(history, batches, index, changes, path);
    }
    hide NewestAt, KeepsNewest;
  }

  lemma PathAppended(history: seq<Batch>, batches: seq<Batch>, index: map<Path, nat>, changes: Batch, path: Path)
    requires |batches| == |history| && PathSuperseding(history, batches, index, changes, path)
    ensures var all, kept := history + [changes], batches + [changes];
      && (path in index ==> NewestAt(all, path, index[path]))
      && (forall k :: 0 <= k < |all| && Names(all[k], path) ==> path in index)
      && (forall k :: 0 <= k < |kept| ==> KeepsNewest(all, kept, index, path, k))
  {
    hide Names, Fold, CountPath;
    var all, kept := history + [changes], batches + [changes];
    forall k | 0 <= k < |kept| ensures KeepsNewest(all, kept, index, path, k) {
      if k < |batches| && !Names(changes, path) { assert KeepsNewest(history, batches, index, path, k); }
    }
  }
}
