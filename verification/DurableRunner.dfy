/** The engine itself: a class over the tables, proved step by step against `DurableSpec`. */
module DurableRunner {
  import opened Prelude
  import opened DurableTypes
  import Spec = DurableSpec

  /** The parsed `state` column, changed in place while a node runs and then written back. */
  class RunState {
    var results: map<string, Value>
    var stepAttempts: map<string, nat>
    var awaitingSignals: seq<(string, string)>
    var loopState: map<string, Slot>
    var childRunIds: map<string, RunId>
    var sleepMarks: map<string, int>

    function Column(): State
      reads this
    {
      State(results, stepAttempts, awaitingSignals, loopState, childRunIds, sleepMarks)
    }

    constructor Parse(column: State)
      ensures Column() == column
    {
      results := column.results;
      stepAttempts := column.stepAttempts;
      awaitingSignals := column.awaitingSignals;
      loopState := column.loopState;
      childRunIds := column.childRunIds;
      sleepMarks := column.sleepMarks;
    }
  }

  /** The tables after a node ran: its journal rows and its child are in, and the run's own
      row has changed at most in its state column. */
  ghost predicate NodeRan(before: Db, after: Db, runId: RunId, node: Node, nr: Spec.NodeRun)
    requires runId in before.runs
  {
    var base := Base(before, nr);
    && runId in after.runs
    && after.runs[runId].(state := nr.state) == before.runs[runId].(state := nr.state)
    && after == base.(
         runs := base.runs[runId := after.runs[runId]],
         journal := before.journal + nr.rows,
         log := before.log + Effects(before, runId, node, nr))
  }

  function Base(before: Db, nr: Spec.NodeRun): Db {
    if nr.spawn.Some? then Spec.StartRun(before, nr.spawn.value.workflow, nr.spawn.value.input) else before
  }

  function Effects(before: Db, runId: RunId, node: Node, nr: Spec.NodeRun): seq<Effect> {
    if nr.spawn.Some? then [ChildStarted(runId, node.name, before.nextRun)] else []
  }

  /** Applying an outcome replaces the state column, so what the node left there is irrelevant. */
  lemma OutcomeIgnoresColumn(row: Run, mid: Run, runId: RunId, node: Node, nr: Spec.NodeRun, effects: seq<Effect>)
    requires mid.(state := nr.state) == row.(state := nr.state)
    ensures var move := Spec.ApplyOutcome(row, runId, node, nr, effects);
      var late := Spec.ApplyOutcome(mid, runId, node, Spec.NodeRun(nr.outcome, nr.state, [], None), []);
      && move.run == late.run && move.wake == late.wake && move.rows == nr.rows + late.rows
      && move.spawn == nr.spawn && move.effects == effects
  {
    assert mid.currentStep == mid.(state := nr.state).currentStep == row.currentStep;
  }

  /** Running the node and then writing its outcome is the one move of the specification. */
  lemma OneMove(before: Db, mid: Db, runId: RunId, node: Node, nr: Spec.NodeRun)
    requires runId in before.runs && NodeRan(before, mid, runId, node, nr)
    ensures var move := Spec.ApplyOutcome(before.runs[runId], runId, node, nr, Effects(before, runId, node, nr));
      var late := Spec.ApplyOutcome(mid.runs[runId], runId, node, Spec.NodeRun(nr.outcome, nr.state, [], None), []);
      Spec.ApplyMove(before, runId, move)
        == Spec.WakeUp(mid.(runs := mid.runs[runId := late.run], journal := mid.journal + late.rows), runId, late.wake)
  {
    var effects := Effects(before, runId, node, nr);
    var late := Spec.ApplyOutcome(mid.runs[runId], runId, node, Spec.NodeRun(nr.outcome, nr.state, [], None), []);
    OutcomeIgnoresColumn(before.runs[runId], mid.runs[runId], runId, node, nr, effects);
    Assoc(before.journal, nr.rows, late.rows);
    var base := Base(before, nr);
    Overwrite(base.runs, runId, mid.runs[runId], late.run);
  }

  /** What the specification's `advance` comes to once the node under the cursor is run. */
  lemma AdvanceRunsNode(reg: Registry, db: Db, runId: RunId, w: World, node: Node, nr: Spec.NodeRun)
    requires runId in db.runs && !Spec.Terminal(db.runs[runId].status) && db.runs[runId].workflow in reg
    requires db.runs[runId].currentStep < |reg[db.runs[runId].workflow].steps|
    requires node == reg[db.runs[runId].workflow].steps[db.runs[runId].currentStep]
    requires var found := Lookup(db.journal, runId, node.name);
      found.None? || found.value.status != RowCompleted
    requires var attempt := Spec.Attempt(db.runs[runId].state, node.name);
      nr == Spec.RunNode(db, node, Ctx(db.runs[runId].input, db.runs[runId].state.results, runId, attempt),
        db.runs[runId].state, attempt, w)
    ensures if nr.spawn.Some? && nr.spawn.value.workflow !in reg then
        && Spec.AdvanceError(reg, db, runId, w) == Some(NotRegistered(nr.spawn.value.workflow))
        && Spec.Advance(reg, db, runId, w) == db
      else
        && Spec.AdvanceError(reg, db, runId, w) == None
        && Spec.Advance(reg, db, runId, w) == Spec.ApplyMove(db, runId,
             Spec.ApplyOutcome(db.runs[runId], runId, node, nr, Effects(db, runId, node, nr)))
  {
  }

  lemma Overwrite<K, V>(m: map<K, V>, k: K, a: V, b: V)
    ensures m[k := a][k := b] == m[k := b]
  {
  }

  class Runner {
    const registry: Registry
    var runs: map<RunId, Run>
    var journal: seq<JournalRow>
    var jobs: map<nat, Job>
    var nextRun: RunId
    var nextJob: nat
    var log: seq<Effect>

    function Tables(): Db
      reads this
    {
      Db(runs, journal, jobs, nextRun, nextJob, log)
    }

    /** Generated ids are unused. */
    ghost predicate Valid()
      reads this
    {
      forall r :: r in runs ==> r < nextRun
    }

    constructor (registry: Registry)
      ensures this.registry == registry && Tables() == EMPTY_DB && Valid()
    {
      this.registry := registry;
      runs, journal, jobs, nextRun, nextJob, log := map[], [], map[], 0, 0, [];
    }

    // ----- Public operations ---------------------------------------------------------------------

    method Start(workflow: string, input: Value) returns (r: Result<RunId, Error>)
      requires Valid()
      modifies this
      ensures Valid()
      ensures Tables() == Spec.Start(registry, old(Tables()), workflow, input)
      ensures r == if workflow in registry then Ok(old(nextRun)) else Err(NotRegistered(workflow))
    {
      if workflow !in registry {
        return Err(NotRegistered(workflow));
      }
      var runId := nextRun;
      nextRun := nextRun + 1;
      runs := runs[runId := Run(workflow, input, Pending, EMPTY_STATE, 0, None, None)];
      Dispatch(AdvanceJob(runId, 0.0));
      return Ok(runId);
    }

    method Find(runId: RunId) returns (r: Result<Run, Error>)
      ensures r == if runId in runs then Ok(runs[runId]) else Err(RunNotFound(runId))
    {
      if runId !in runs {
        return Err(RunNotFound(runId));
      }
      return Ok(runs[runId]);
    }

    method Advance(runId: RunId, w: World) returns (r: Result<(), Error>)
      requires Valid()
      modifies this
      ensures Valid()
      ensures Tables() == Spec.Advance(registry, old(Tables()), runId, w)
      ensures match Spec.AdvanceError(registry, old(Tables()), runId, w)
        case None => r == Ok(())
        case Some(error) => r == Err(error)
    {
      if runId !in runs {
        return Err(RunNotFound(runId));
      }
      var row := runs[runId];
      if row.status == Completed || row.status == Failed {
        return Ok(());
      }
      if row.workflow !in registry {
        return Err(NotRegistered(row.workflow));
      }
      var wf := registry[row.workflow];
      var state := new RunState.Parse(row.state);
      if row.currentStep >= |wf.steps| {
        MarkCompleted(runId, state.results);
        return Ok(());
      }
      var node := wf.steps[row.currentStep];
      var journaled := Lookup(journal, runId, node.name);
      if journaled.Some? && journaled.value.status == RowCompleted {
        state.results := state.results[node.name := journaled.value.result];
        AdvanceCursor(runId, row.currentStep + 1, state.Column());
        Dispatch(AdvanceJob(runId, 0.0));
        return Ok(());
      }
      ghost var attempt := Spec.Attempt(row.state, node.name);
      ghost var nr := Spec.RunNode(
        Tables(), node, Ctx(row.input, row.state.results, runId, attempt), row.state, attempt, w);
      AdvanceRunsNode(registry, Tables(), runId, w, node, nr);
      r := AdvanceNode(runId, node, state, w, nr);
    }

    /** The part of `advance` that runs the node under the cursor and writes what came of it. */
    method AdvanceNode(runId: RunId, node: Node, state: RunState, w: World, ghost nr: Spec.NodeRun)
      returns (r: Result<(), Error>)
      requires Valid() && runId in runs && state.Column() == runs[runId].state
      requires var row := runs[runId];
        var attempt := Spec.Attempt(row.state, node.name);
        nr == Spec.RunNode(Tables(), node, Ctx(row.input, row.state.results, runId, attempt), row.state, attempt, w)
      modifies this, state
      ensures Valid()
      ensures var before := old(Tables());
        if nr.spawn.Some? && nr.spawn.value.workflow !in registry then
          r == Err(NotRegistered(nr.spawn.value.workflow)) && Tables() == before
        else
          r == Ok(()) &&
          Tables() == Spec.ApplyMove(before, runId,
            Spec.ApplyOutcome(before.runs[runId], runId, node, nr, Effects(before, runId, node, nr)))
    {
      var row := runs[runId];
      var attempt := (if node.name in state.stepAttempts then state.stepAttempts[node.name] else 0) + 1;
      var ctx := Ctx(row.input, state.results, runId, attempt);
      var ran := RunNode(node, ctx, state, w);
      if ran.Err? {
        return Err(ran.error);
      }
      OneMove(old(Tables()), Tables(), runId, node, nr);
      Settle(runId, row.currentStep, node, state, ran.value);
      return Ok(());
    }

    /** Writes the outcome and, if the run should continue, dispatches its next advance. */
    method Settle(runId: RunId, currentStep: nat, node: Node, state: RunState, outcome: Outcome)
      requires Valid() && runId in runs && runs[runId].currentStep == currentStep
      modifies this, state
      ensures Valid()
      ensures var late := Spec.ApplyOutcome(old(runs)[runId], runId, node,
          Spec.NodeRun(outcome, old(state.Column()), [], None), []);
        Tables() == Spec.WakeUp(
          old(Tables()).(runs := old(runs)[runId := late.run], journal := old(journal) + late.rows), runId, late.wake)
    {
      var shouldContinue := ApplyOutcome(runId, currentStep, node, state, outcome);
      if shouldContinue {
        Dispatch(AdvanceJob(runId, 0.0));
      }
    }

    method Signal(runId: RunId, signal: string, payload: Value) returns (r: Result<bool, Error>)
      requires Valid()
      modifies this
      ensures Valid()
      ensures Tables() == Spec.Signal(old(Tables()), runId, signal, payload)
      ensures r == if runId !in old(runs) then Err(RunNotFound(runId))
                   else Ok(Spec.SignalTarget(old(Tables()), runId, signal).Some?)
    {
      if runId !in runs {
        return Err(RunNotFound(runId));
      }
      var row := runs[runId];
      if row.status != Waiting {
        return Ok(false);
      }
      var state := new RunState.Parse(row.state);
      var matched := FindAwaiting(state.awaitingSignals, signal);
      if matched.None? {
        return Ok(false);
      }
      var nodeName := matched.value;
      Insert(JournalRow(runId, nodeName, RowCompleted, payload, None, 1));
      log := log + [SignalAccepted(runId, nodeName, payload)];
      state.awaitingSignals := DropAwaiting(state.awaitingSignals, nodeName);
      state.results := state.results[nodeName := payload];
      runs := runs[runId := runs[runId].(
        status := Running, state := state.Column(), currentStep := runs[runId].currentStep + 1)];
      Dispatch(AdvanceJob(runId, 0.0));
      return Ok(true);
    }

    method Compensate(runId: RunId, w: World) returns (r: Result<(), Error>)
      requires Valid()
      modifies this
      ensures Valid()
      ensures Tables() == Spec.Compensate(registry, old(Tables()), runId, w)
      ensures match Spec.CompensateError(registry, old(Tables()), runId)
        case None => r == Ok(())
        case Some(error) => r == Err(error)
    {
      if runId !in runs {
        return Err(RunNotFound(runId));
      }
      var row := runs[runId];
      if row.status != Compensating {
        return Ok(());
      }
      if row.workflow !in registry {
        return Err(NotRegistered(row.workflow));
      }
      var wf := registry[row.workflow];
      var ctx := Ctx(row.input, row.state.results, runId, 1);
      var names := Reverse(Spec.CompletedNames(journal, runId));
      var i := 0;
      while i < |names|
        invariant 0 <= i <= |names|
        invariant Tables() == old(Tables()).(log := old(log) + Spec.CompensateAll(wf, names[..i], ctx, w))
      {
        assert names[..i + 1][..i] == names[..i];
        Assoc(old(log), Spec.CompensateAll(wf, names[..i], ctx, w), Spec.CompensateOne(wf, names[i], ctx, w));
        CompensateOne(wf, names[i], ctx, w);
        i := i + 1;
      }
      assert names[..i] == names;
      runs := runs[runId := runs[runId].(status := Failed)];
      return Ok(());
    }

    /** One turn of the rollback: a compensator that throws is recorded and passed over. */
    method CompensateOne(wf: Workflow, name: string, ctx: Ctx, w: World)
      modifies this`log
      ensures log == old(log) + Spec.CompensateOne(wf, name, ctx, w)
    {
      var found := FindNode(wf.steps, name);
      if found.None? || !found.value.Step? || found.value.compensate.None? {
        return;
      }
      log := log + [CompensatorCalled(ctx.runId, name, ctx)];
      var answer := found.value.compensate.value(ctx, w);
      if answer.Err? {
        log := log + [CompensatorThrew(ctx.runId, name, answer.error)];
      }
    }

    // ----- Table access ----------------------------------------------------------------------------

    method Dispatch(job: Job)
      modifies this`jobs, this`nextJob
      ensures Tables() == Spec.Enqueue(old(Tables()), job)
    {
      jobs := jobs[nextJob := job];
      nextJob := nextJob + 1;
    }

    method Insert(row: JournalRow)
      modifies this`journal
      ensures journal == old(journal) + [row]
    {
      journal := journal + [row];
    }

    method MarkCompleted(runId: RunId, results: map<string, Value>)
      requires runId in runs
      modifies this`runs
      ensures runs == old(runs)[runId := old(runs)[runId].(
        status := Completed, state := EMPTY_STATE.(results := results), result := Some(results))]
    {
      runs := runs[runId := runs[runId].(
        status := Completed, state := EMPTY_STATE.(results := results), result := Some(results))];
    }

    method AdvanceCursor(runId: RunId, nextStep: nat, column: State)
      requires runId in runs
      modifies this`runs
      ensures runs == old(runs)[runId := old(runs)[runId].(
        currentStep := nextStep, state := column, status := Running)]
    {
      runs := runs[runId := runs[runId].(currentStep := nextStep, state := column, status := Running)];
    }

    // ----- Running one node --------------------------------------------------------------------------

    method RunNode(node: Node, ctx: Ctx, state: RunState, w: World) returns (r: Result<Outcome, Error>)
      requires Valid() && ctx.runId in runs
      modifies this, state
      ensures Valid()
      ensures var nr := Spec.RunNode(old(Tables()), node, ctx, old(state.Column()), ctx.attempt, w);
        if nr.spawn.Some? && nr.spawn.value.workflow !in registry then
          r == Err(NotRegistered(nr.spawn.value.workflow)) && Tables() == old(Tables())
        else
          r == Ok(nr.outcome) && state.Column() == nr.state && NodeRan(old(Tables()), Tables(), ctx.runId, node, nr)
    {
      match node {
        case Loop(_, _, _, _, _, _) =>
          var outcome := RunLoop(node, ctx, state, w);
          return Ok(outcome);
        case ChildWorkflow(_, _, _) =>
          r := RunChildWorkflow(node, ctx, state, w);
        case _ =>
          var outcome := RunPlainNode(node, ctx, state, w);
          return Ok(outcome);
      }
    }

    /** The kinds that leave the tables alone. */
    method RunPlainNode(node: Node, ctx: Ctx, state: RunState, w: World) returns (outcome: Outcome)
      requires !node.Loop? && !node.ChildWorkflow?
      modifies state
      ensures var nr := Spec.RunNode(old(Tables()), node, ctx, old(state.Column()), ctx.attempt, w);
        outcome == nr.outcome && state.Column() == nr.state && nr.rows == [] && nr.spawn == None
    {
      match node {
        case Sleep(_, _) =>
          outcome := RunSleep(node, ctx, state, w);
        case WaitForSignal(_, _) =>
          outcome := RunWaitForSignal(node, ctx, state, w);
        case _ =>
          outcome := RunHandlerNode(node, ctx, w);
      }
    }

    /** The kinds that share the retry envelope. */
    method RunHandlerNode(node: Node, ctx: Ctx, w: World) returns (outcome: Outcome)
      requires node.Step? || node.Parallel? || node.Route?
      ensures outcome == Spec.StepLike(node, ctx.attempt, w, Spec.RunHandler(node, ctx, w))
    {
      match node {
        case Step(_, handler, _, _, _) =>
          outcome := RunStepLike(node, ctx.attempt, w, handler(ctx, w));
        case Parallel(_, branches, _, _) =>
          var all := RunBranches(branches, ctx, w);
          var answer := match all case Ok(results) => Ok(Record(results)) case Err(error) => Err(error);
          outcome := RunStepLike(node, ctx.attempt, w, answer);
        case Route(_, _, _, _, _) =>
          var answer := RunRoute(node, ctx, w);
          outcome := RunStepLike(node, ctx.attempt, w, answer);
      }
    }

    method RunStepLike(node: Node, attempt: nat, w: World, answer: Result<Value, string>) returns (outcome: Outcome)
      requires node.Step? || node.Parallel? || node.Route?
      ensures outcome == Spec.StepLike(node, attempt, w, answer)
    {
      match answer {
        case Ok(value) => return NodeDone(value, attempt);
        case Err(error) =>
          if attempt < node.maxAttempts {
            return Retry(attempt, AtLeast(0.0, node.backoff(attempt, w)));
          }
          return Exhausted(attempt, error);
      }
    }

    method RunBranches(branches: seq<(string, Handler)>, ctx: Ctx, w: World)
      returns (all: Result<map<string, Value>, string>)
      ensures all == Spec.AllBranches(branches, ctx, w)
    {
      var results: map<string, Value>, rejections: seq<string> := map[], [];
      var i := 0;
      while i < |branches|
        invariant 0 <= i <= |branches|
        invariant results == Spec.BranchResults(branches[..i], ctx, w)
        invariant rejections == Spec.Rejections(branches[..i], ctx, w)
      {
        assert branches[..i + 1][..i] == branches[..i];
        match branches[i].1(ctx, w) {
          case Err(error) => rejections := rejections + [error];
          case Ok(value) => results := results[branches[i].0 := value];
        }
        i := i + 1;
      }
      assert branches[..i] == branches;
      return if rejections == [] then Ok(results) else Err(rejections[w.nonce % |rejections|]);
    }

    method RunRoute(node: Node, ctx: Ctx, w: World) returns (answer: Result<Value, string>)
      requires node.Route?
      ensures answer == Spec.RunHandler(node, ctx, w)
    {
      var selected := node.select(ctx, w);
      if selected.Err? {
        return Err(selected.error);
      }
      var handler := FindBranch(node.branches, selected.value);
      if handler.None? {
        return Err(UnknownBranchError(node.name, selected.value, node.branches));
      }
      var result := handler.value(ctx, w);
      match result {
        case Err(error) => return Err(error);
        case Ok(value) => return Ok(Record(map["branch" := Str(selected.value), "result" := value]));
      }
    }

    method RunSleep(node: Node, ctx: Ctx, state: RunState, w: World) returns (outcome: Outcome)
      requires node.Sleep?
      modifies state`sleepMarks
      ensures var nr := Spec.RunSleep(node, ctx, old(state.Column()), ctx.attempt, w);
        outcome == nr.outcome && state.Column() == nr.state
    {
      var requested := node.delay(ctx, w).Floor;
      var delaySec := if requested < 0 then 0 else requested;
      if node.name in state.sleepMarks {
        var elapsed := (w.nowMs - state.sleepMarks[node.name]) as real / 1000.0;
        if elapsed >= delaySec as real {
          return NodeDone(Record(map["sleptSec" := Num(delaySec as real)]), ctx.attempt);
        }
        return Parked(Some(AtLeast(1.0, delaySec as real - elapsed)));
      }
      state.sleepMarks := state.sleepMarks[node.name := w.nowMs];
      return Parked(Some(delaySec as real));
    }

    method RunWaitForSignal(node: Node, ctx: Ctx, state: RunState, w: World) returns (outcome: Outcome)
      requires node.WaitForSignal?
      modifies state`awaitingSignals
      ensures var nr := Spec.RunWait(node, ctx, old(state.Column()), w);
        outcome == nr.outcome && state.Column() == nr.state
    {
      state.awaitingSignals := SetAwaiting(state.awaitingSignals, node.name, node.signalName(ctx, w));
      return Parked(None);
    }

    method RunLoop(node: Node, ctx: Ctx, state: RunState, w: World) returns (outcome: Outcome)
      requires node.Loop? && ctx.runId in runs
      modifies this`runs, this`journal, state`loopState
      ensures var nr := Spec.RunLoop(old(journal), node, ctx, old(state.Column()), ctx.attempt, w);
        outcome == nr.outcome && state.Column() == nr.state
        && journal == old(journal) + nr.rows
        && runs == old(runs)[ctx.runId := old(runs)[ctx.runId].(
             state := if nr.rows == [] then old(runs)[ctx.runId].state else nr.state)]
    {
      var slot := if node.name in state.loopState then state.loopState[node.name] else Slot(0, []);
      var iterName := IterKey(node.name, slot.iteration);
      var iterJournal := Lookup(journal, ctx.runId, iterName);
      if iterJournal.Some? && iterJournal.value.status == RowCompleted {
        slot := Slot(slot.iteration + 1, slot.results + [iterJournal.value.result]);
      }
      state.loopState := state.loopState[node.name := slot];
      if slot.iteration >= node.maxIterations {
        return Exhausted(ctx.attempt, LoopBoundError(node.maxIterations));
      }
      var keepGoing := node.condition(ctx, slot.iteration, w);
      if keepGoing.Err? {
        return Exhausted(ctx.attempt, keepGoing.error);
      }
      if !keepGoing.value {
        return NodeDone(List(slot.results), ctx.attempt);
      }
      outcome := RunIteration(node, iterName, slot, ctx, state, w);
    }

    method RunIteration(node: Node, iterName: string, slot: Slot, ctx: Ctx, state: RunState, w: World)
      returns (outcome: Outcome)
      requires node.Loop? && ctx.runId in runs
      modifies this`runs, this`journal, state`loopState
      ensures var nr := Spec.RunBody(node, iterName, ctx, old(state.Column()), slot, ctx.attempt, w);
        outcome == nr.outcome && state.Column() == nr.state
        && journal == old(journal) + nr.rows
        && runs == old(runs)[ctx.runId := old(runs)[ctx.runId].(
             state := if nr.rows == [] then old(runs)[ctx.runId].state else nr.state)]
    {
      var answer := node.body(ctx, slot.iteration, w);
      if answer.Err? {
        if ctx.attempt < node.maxAttempts {
          return Retry(ctx.attempt, AtLeast(0.0, node.backoff(ctx.attempt, w)));
        }
        return Exhausted(ctx.attempt, answer.error);
      }
      Insert(JournalRow(ctx.runId, iterName, RowCompleted, answer.value, None, ctx.attempt));
      var next := Slot(slot.iteration + 1, slot.results + [answer.value]);
      state.loopState := state.loopState[node.name := next];
      runs := runs[ctx.runId := runs[ctx.runId].(state := state.Column())];
      return Parked(Some(0.0));
    }

    method RunChildWorkflow(node: Node, ctx: Ctx, state: RunState, w: World) returns (r: Result<Outcome, Error>)
      requires node.ChildWorkflow? && Valid() && ctx.runId in runs
      modifies this, state`childRunIds
      ensures Valid()
      ensures var nr := Spec.RunChild(old(runs), old(nextRun), node, ctx, old(state.Column()), ctx.attempt, w);
        if nr.spawn.Some? && nr.spawn.value.workflow !in registry then
          r == Err(NotRegistered(nr.spawn.value.workflow)) && Tables() == old(Tables())
        else
          r == Ok(nr.outcome) && state.Column() == nr.state && NodeRan(old(Tables()), Tables(), ctx.runId, node, nr)
    {
      if node.name !in state.childRunIds {
        var spec := node.start(ctx, w);
        if spec.Err? {
          if ctx.attempt < 1 {
            return Ok(Retry(ctx.attempt, 0.0));
          }
          return Ok(Exhausted(ctx.attempt, spec.error));
        }
        var started := Start(spec.value.workflow, spec.value.input);
        if started.Err? {
          return Err(started.error);
        }
        var childId := started.value;
        log := log + [ChildStarted(ctx.runId, node.name, childId)];
        state.childRunIds := state.childRunIds[node.name := childId];
        runs := runs[ctx.runId := runs[ctx.runId].(state := state.Column())];
        return Ok(Parked(Some(node.pollIntervalSec)));
      }
      var childId := state.childRunIds[node.name];
      if childId !in runs {
        return Ok(Exhausted(ctx.attempt, ChildGoneError(childId)));
      }
      var child := runs[childId];
      if child.status == Completed {
        return Ok(NodeDone(if child.result.Some? then Record(child.result.value) else Null, ctx.attempt));
      }
      if child.status == Failed {
        return Ok(Exhausted(ctx.attempt, if child.error.Some? then child.error.value else CHILD_FALLBACK_ERROR));
      }
      return Ok(Parked(Some(node.pollIntervalSec)));
    }

    // ----- Outcome to state ----------------------------------------------------------------------------

    /** A node is done: its row and its result are in, its bookkeeping is gone, the cursor is past it. */
    method Complete(runId: RunId, currentStep: nat, node: Node, state: RunState, value: Value, attempt: nat)
      requires runId in runs
      modifies this`runs, this`journal, state
      ensures journal == old(journal) + [JournalRow(runId, node.name, RowCompleted, value, None, attempt)]
      ensures runs == old(runs)[runId := old(runs)[runId].(
        status := Running, state := Spec.Settled(node, old(state.Column()), value), currentStep := currentStep + 1)]
    {
      Insert(JournalRow(runId, node.name, RowCompleted, value, None, attempt));
      state.results := state.results[node.name := value];
      state.stepAttempts := WithoutKey(state.stepAttempts, node.name);
      if node.Loop? {
        state.loopState := WithoutKey(state.loopState, node.name);
      }
      if node.ChildWorkflow? {
        state.childRunIds := WithoutKey(state.childRunIds, node.name);
      }
      state.sleepMarks := WithoutKey(state.sleepMarks, node.name);
      AdvanceCursor(runId, currentStep + 1, state.Column());
    }

    /** Writes the outcome to the tables. When it answers true the caller dispatches the next
        advance; the other outcomes dispatch their job here. */
    method ApplyOutcome(runId: RunId, currentStep: nat, node: Node, state: RunState, outcome: Outcome)
      returns (shouldContinue: bool)
      requires Valid() && runId in runs && runs[runId].currentStep == currentStep
      modifies this, state
      ensures Valid()
      ensures shouldContinue == outcome.NodeDone?
      ensures var nr := Spec.NodeRun(outcome, old(state.Column()), [], None);
        var move := Spec.ApplyOutcome(old(runs)[runId], runId, node, nr, []);
        var written := old(Tables()).(runs := old(runs)[runId := move.run], journal := old(journal) + move.rows);
        Tables() == if shouldContinue then written else Spec.WakeUp(written, runId, move.wake)
    {
      match outcome {
        case NodeDone(value, attempt) =>
          Complete(runId, currentStep, node, state, value, attempt);
          return true;
        case Retry(attempt, delaySec) =>
          state.stepAttempts := state.stepAttempts[node.name := attempt];
          runs := runs[runId := runs[runId].(state := state.Column())];
          Dispatch(AdvanceJob(runId, delaySec));
          return false;
        case Exhausted(attempt, error) =>
          Insert(JournalRow(runId, node.name, RowFailed, Null, Some(error), attempt));
          runs := runs[runId := runs[runId].(
            status := Compensating, state := state.Column(), error := Some(error))];
          Dispatch(CompensateJob(runId));
          return false;
        case Parked(wakeAfter) =>
          runs := runs[runId := runs[runId].(status := Waiting, state := state.Column())];
          if wakeAfter.Some? {
            Dispatch(AdvanceJob(runId, wakeAfter.value));
          }
          return false;
      }
    }
  }
}
