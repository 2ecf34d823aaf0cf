/** Every transition keeps the run invariant, hence every reachable database satisfies it. */
module DurableRunInvariant {
  import opened Prelude
  import opened DurableTypes
  import opened DurableSpec
  import opened DurableJournal

  // ----- One node ----------------------------------------------------------------------------

  /** Running the node under the cursor changed only that node's bookkeeping, and wrote
      exactly the iteration rows that its loop slot now accounts for. */
  ghost predicate NodeRunOk(steps: seq<Node>, run: Run, runId: RunId, nr: NodeRun)
    requires run.currentStep < |steps|
  {
    var node := steps[run.currentStep];
    && ShapeOk(steps, run.(state := nr.state))
    && nr.state.results == run.state.results
    && CurrentRows(steps, run.(state := nr.state)) == CurrentRows(steps, run) + CompletedRows(nr.rows, runId)
    && (nr.outcome.Parked? || (!node.WaitForSignal? && nr.state.awaitingSignals == run.state.awaitingSignals))
    && (nr.outcome.Parked? ==> (nr.state.awaitingSignals != [] <==> node.WaitForSignal?))
    && (nr.outcome.Retry? ==> Retried(node))
    && (nr.outcome.Exhausted? || InBound(node, nr.state))
    && (nr.outcome.NodeDone? && node.Loop? ==>
          var slot := SlotOf(nr.state, node.name);
          slot.iteration < node.maxIterations && nr.outcome.value == List(slot.results))
  }

  lemma SlotSet(steps: seq<Node>, run: Run, slot: Slot)
    requires run.currentStep < |steps| && steps[run.currentStep].Loop? && ShapeOk(steps, run)
    requires slot.iteration == |slot.results|
    ensures var node := steps[run.currentStep];
      var after := run.(state := run.state.(loopState := run.state.loopState[node.name := slot]));
      && ShapeOk(steps, after)
      && CurrentRows(steps, after) == IterRows(node.name, Kept(slot.results, node.maxIterations))
      && SlotOf(after.state, node.name) == slot
  {
  }

  lemma IterRowsPush(name: string, values: seq<Value>, value: Value)
    ensures IterRows(name, values + [value]) == IterRows(name, values) + [(IterKey(name, |values|), value)]
  {
  }

  lemma BodyRunOk(steps: seq<Node>, run: Run, ctx: Ctx, attempt: nat, w: World)
    requires run.currentStep < |steps| && steps[run.currentStep].Loop? && ShapeOk(steps, run)
    requires SlotOf(run.state, steps[run.currentStep].name).iteration < steps[run.currentStep].maxIterations
    ensures var node := steps[run.currentStep];
      var slot := SlotOf(run.state, node.name);
      var st := run.state.(loopState := run.state.loopState[node.name := slot]);
      NodeRunOk(steps, run, ctx.runId, RunBody(node, IterKey(node.name, slot.iteration), ctx, st, slot, attempt, w))
  {
    var node := steps[run.currentStep];
    var slot := SlotOf(run.state, node.name);
    SlotSet(steps, run, slot);
    match node.body(ctx, slot.iteration, w) {
      case Err(_) =>
      case Ok(value) =>
        var next := Slot(slot.iteration + 1, slot.results + [value]);
        SlotSet(steps, run, next);
        OneRow(JournalRow(ctx.runId, IterKey(node.name, slot.iteration), RowCompleted, value, None, attempt),
          ctx.runId);
        IterRowsPush(node.name, slot.results, value);
        assert run.state.loopState[node.name := slot][node.name := next] == run.state.loopState[node.name := next];
    }
  }

  lemma LoopRunOk(steps: seq<Node>, db: Db, run: Run, ctx: Ctx, attempt: nat, w: World)
    requires WellNamed(steps) && run.currentStep < |steps| && steps[run.currentStep].Loop?
    requires RunOk(steps, run, CompletedRows(db.journal, ctx.runId))
    ensures NodeRunOk(steps, run, ctx.runId,
      RunLoop(db.journal, steps[run.currentStep], ctx, run.state, attempt, w))
  {
    var node := steps[run.currentStep];
    var slot := SlotOf(run.state, node.name);
    if slot.iteration < node.maxIterations {
      SlotNotReplayed(steps, db, run, ctx.runId);
      SlotSet(steps, run, slot);
      BodyRunOk(steps, run, ctx, attempt, w);
    } else {
      SpentLoopOk(steps, db.journal, run, ctx, attempt, w);
    }
  }

  /** A loop at its bound fails, whatever its slot picks up on the way. */
  lemma SpentLoopOk(steps: seq<Node>, journal: seq<JournalRow>, run: Run, ctx: Ctx, attempt: nat, w: World)
    requires run.currentStep < |steps| && steps[run.currentStep].Loop? && ShapeOk(steps, run)
    requires SlotOf(run.state, steps[run.currentStep].name).iteration >= steps[run.currentStep].maxIterations
    ensures NodeRunOk(steps, run, ctx.runId, RunLoop(journal, steps[run.currentStep], ctx, run.state, attempt, w))
  {
    var node := steps[run.currentStep];
    var slot, after := SlotOf(run.state, node.name), ReplaySlot(journal, ctx.runId, node, run.state);
    SlotSet(steps, run, after);
    assert Kept(after.results, node.maxIterations) == Kept(slot.results, node.maxIterations);
    NilRight(CurrentRows(steps, run));
  }

  /** Under the lock an iteration about to run is never already in the journal. */
  lemma SlotNotReplayed(steps: seq<Node>, db: Db, run: Run, runId: RunId)
    requires WellNamed(steps) && run.currentStep < |steps| && steps[run.currentStep].Loop?
    requires RunOk(steps, run, CompletedRows(db.journal, runId))
    requires SlotOf(run.state, steps[run.currentStep].name).iteration < steps[run.currentStep].maxIterations
    ensures ReplaySlot(db.journal, runId, steps[run.currentStep], run.state)
      == SlotOf(run.state, steps[run.currentStep].name)
  {
    var node := steps[run.currentStep];
    var key := IterKey(node.name, SlotOf(run.state, node.name).iteration);
    var found := Lookup(db.journal, runId, key);
    if found.Some? && found.value.status == RowCompleted {
      LookupFindsRow(db.journal, runId, key);
      IterationNotJournaled(steps, run, CompletedRows(db.journal, runId), found.value.result);
      assert false;
    }
  }

  lemma OtherRunOk(steps: seq<Node>, db: Db, run: Run, ctx: Ctx, attempt: nat, w: World)
    requires run.currentStep < |steps| && attempt > 0 && !steps[run.currentStep].Loop?
    requires ShapeOk(steps, run)
    ensures NodeRunOk(steps, run, ctx.runId, RunNode(db, steps[run.currentStep], ctx, run.state, attempt, w))
  {
  }

  lemma RunNodeOk(steps: seq<Node>, db: Db, run: Run, ctx: Ctx, attempt: nat, w: World)
    requires WellNamed(steps) && run.currentStep < |steps| && attempt > 0
    requires RunOk(steps, run, CompletedRows(db.journal, ctx.runId))
    ensures NodeRunOk(steps, run, ctx.runId, RunNode(db, steps[run.currentStep], ctx, run.state, attempt, w))
  {
    var node := steps[run.currentStep];
    if node.Loop? {
      LoopRunOk(steps, db, run, ctx, attempt, w);
    } else {
      OtherRunOk(steps, db, run, ctx, attempt, w);
    }
  }

  lemma AttemptsKept(db: Db, node: Node, ctx: Ctx, st: State, attempt: nat, w: World)
    ensures var after := RunNode(db, node, ctx, st, attempt, w).state;
      after.stepAttempts == st.stepAttempts && (!node.WaitForSignal? ==> after.awaitingSignals == st.awaitingSignals)
  {
  }

  // ----- One move ----------------------------------------------------------------------------

  lemma DoneNodeRows(steps: seq<Node>, run: Run, runId: RunId, nr: NodeRun)
    requires run.currentStep < |steps| && NodeRunOk(steps, run, runId, nr) && nr.outcome.NodeDone?
    ensures var node := steps[run.currentStep];
      NodeRows(node, nr.outcome.value)
        == CurrentRows(steps, run) + (CompletedRows(nr.rows, runId) + [(node.name, nr.outcome.value)])
  {
    Assoc(CurrentRows(steps, run), CompletedRows(nr.rows, runId), [(steps[run.currentStep].name, nr.outcome.value)]);
  }

  lemma DoneMoveRows(run: Run, runId: RunId, node: Node, nr: NodeRun)
    requires nr.outcome.NodeDone?
    ensures CompletedRows(ApplyOutcome(run, runId, node, nr, []).rows, runId)
      == CompletedRows(nr.rows, runId) + [(node.name, nr.outcome.value)]
  {
    var row := JournalRow(runId, node.name, RowCompleted, nr.outcome.value, None, nr.outcome.attempt);
    CompletedRowsAppend(nr.rows, [row], runId);
    OneRow(row, runId);
  }

  lemma PastRowsStep(steps: seq<Node>, n: nat, results: map<string, Value>, value: Value)
    requires n < |steps| && results.Keys == NamesBefore(steps, n) && steps[n].name !in NamesBefore(steps, n)
    ensures results[steps[n].name := value].Keys == NamesBefore(steps, n + 1)
    ensures PastRows(steps, n + 1, results[steps[n].name := value])
      == PastRows(steps, n, results) + NodeRows(steps[n], value)
  {
    PastRowsFrame(steps, n, results, steps[n].name, value);
  }

  lemma BlankRun(steps: seq<Node>, run: Run)
    requires run.currentStep <= |steps| && run.state == EMPTY_STATE.(results := run.state.results)
    ensures ShapeOk(steps, run) && CurrentRows(steps, run) == []
  {
  }

  /** The cursor passes a node once the node's rows are complete and its bookkeeping is gone. */
  lemma SteppedOk(steps: seq<Node>, run: Run, results: map<string, Value>, value: Value,
      current: seq<Entry>, added: seq<Entry>)
    requires 0 < run.currentStep <= |steps| && run.status == Running && run.result == None
    requires results.Keys == NamesBefore(steps, run.currentStep - 1)
    requires steps[run.currentStep - 1].name !in results
    requires run.state == EMPTY_STATE.(results := results[steps[run.currentStep - 1].name := value])
    requires current + added == NodeRows(steps[run.currentStep - 1], value)
    ensures RunOk(steps, run, (PastRows(steps, run.currentStep - 1, results) + current) + added)
  {
    var n := run.currentStep - 1;
    var stored := results[steps[n].name := value];
    SteppedRows(steps, n, results, value, current, added);
    FreshRunOk(steps, run, stored, (PastRows(steps, n, results) + current) + added);
  }

  lemma FreshRunOk(steps: seq<Node>, run: Run, results: map<string, Value>, rows: seq<Entry>)
    requires run.currentStep <= |steps| && run.status == Running && run.result == None
    requires run.state == EMPTY_STATE.(results := results)
    requires results.Keys == NamesBefore(steps, run.currentStep)
    requires rows == PastRows(steps, run.currentStep, results)
    ensures RunOk(steps, run, rows)
  {
    BlankRun(steps, run);
    NilRight(rows);
  }

  lemma SteppedRows(steps: seq<Node>, n: nat, results: map<string, Value>, value: Value,
      current: seq<Entry>, added: seq<Entry>)
    requires n < |steps| && results.Keys == NamesBefore(steps, n) && steps[n].name !in results
    requires current + added == NodeRows(steps[n], value)
    ensures results[steps[n].name := value].Keys == NamesBefore(steps, n + 1)
    ensures (PastRows(steps, n, results) + current) + added == PastRows(steps, n + 1, results[steps[n].name := value])
  {
    PastRowsStep(steps, n, results, value);
    Assoc(PastRows(steps, n, results), current, added);
  }

  lemma DoneOk(steps: seq<Node>, run: Run, rows: seq<Entry>, runId: RunId, nr: NodeRun)
    requires WellNamed(steps) && run.currentStep < |steps| && RunOk(steps, run, rows)
    requires run.status != Completed
    requires NodeRunOk(steps, run, runId, nr) && nr.outcome.NodeDone?
    ensures var move := ApplyOutcome(run, runId, steps[run.currentStep], nr, []);
      RunOk(steps, move.run, rows + CompletedRows(move.rows, runId))
  {
    var node := steps[run.currentStep];
    var move := ApplyOutcome(run, runId, node, nr, []);
    DoneMoveRows(run, runId, node, nr);
    DoneNodeRows(steps, run, runId, nr);
    SettledShape(steps, run, nr, nr.outcome.value);
    CursorNameIsNew(steps, run.currentStep);
    SteppedOk(steps, move.run, run.state.results, nr.outcome.value,
      CurrentRows(steps, run), CompletedRows(move.rows, runId));
  }

  lemma SettledShape(steps: seq<Node>, run: Run, nr: NodeRun, value: Value)
    requires WellNamed(steps) && run.currentStep < |steps|
    requires ShapeOk(steps, run.(state := nr.state)) && nr.state.awaitingSignals == []
    ensures var st := Settled(steps[run.currentStep], nr.state, value);
      st == EMPTY_STATE.(results := nr.state.results[steps[run.currentStep].name := value])
  {
    var node := steps[run.currentStep];
    var st := Settled(node, nr.state, value);
    assert st.stepAttempts == map[] && st.loopState == map[] && st.childRunIds == map[] && st.sleepMarks == map[];
  }

  lemma ParkedOk(steps: seq<Node>, run: Run, rows: seq<Entry>, runId: RunId, nr: NodeRun)
    requires run.currentStep < |steps| && RunOk(steps, run, rows) && !Terminal(run.status)
    requires NodeRunOk(steps, run, runId, nr) && nr.outcome.Parked?
    ensures var move := ApplyOutcome(run, runId, steps[run.currentStep], nr, []);
      RunOk(steps, move.run, rows + CompletedRows(move.rows, runId))
  {
    Assoc(PastRows(steps, run.currentStep, run.state.results), CurrentRows(steps, run),
      CompletedRows(nr.rows, runId));
  }

  lemma RetryOk(steps: seq<Node>, run: Run, rows: seq<Entry>, runId: RunId, nr: NodeRun)
    requires run.currentStep < |steps| && RunOk(steps, run, rows) && !Terminal(run.status)
    requires NodeRunOk(steps, run, runId, nr) && nr.outcome.Retry?
    ensures var move := ApplyOutcome(run, runId, steps[run.currentStep], nr, []);
      RunOk(steps, move.run, rows + CompletedRows(move.rows, runId))
  {
    Assoc(PastRows(steps, run.currentStep, run.state.results), CurrentRows(steps, run),
      CompletedRows(nr.rows, runId));
  }

  lemma ExhaustedOk(steps: seq<Node>, run: Run, rows: seq<Entry>, runId: RunId, nr: NodeRun)
    requires run.currentStep < |steps| && RunOk(steps, run, rows) && !Terminal(run.status)
    requires NodeRunOk(steps, run, runId, nr) && nr.outcome.Exhausted?
    ensures var move := ApplyOutcome(run, runId, steps[run.currentStep], nr, []);
      RunOk(steps, move.run, rows + CompletedRows(move.rows, runId))
  {
    var row := JournalRow(runId, steps[run.currentStep].name, RowFailed, Null, Some(nr.outcome.error),
      nr.outcome.attempt);
    CompletedRowsAppend(nr.rows, [row], runId);
    OneRow(row, runId);
    NilRight(CompletedRows(nr.rows, runId));
    Assoc(PastRows(steps, run.currentStep, run.state.results), CurrentRows(steps, run),
      CompletedRows(nr.rows, runId));
  }

  /** One `advance`, delivered at any time and any number of times, keeps the run invariant. */
  lemma AdvanceMoveOk(wf: Workflow, db: Db, runId: RunId, w: World)
    requires runId in db.runs && !Terminal(db.runs[runId].status) && WellNamed(wf.steps)
    requires RunOk(wf.steps, db.runs[runId], CompletedRows(db.journal, runId))
    ensures var move := AdvanceMove(wf, db, runId, w);
      RunOk(wf.steps, move.run, CompletedRows(db.journal, runId) + CompletedRows(move.rows, runId))
  {
    var run, rows, steps := db.runs[runId], CompletedRows(db.journal, runId), wf.steps;
    if run.currentStep < |steps| {
      var node := steps[run.currentStep];
      NodeNotReplayed(wf, db, runId);
      var attempt := Attempt(run.state, node.name);
      var ctx := Ctx(run.input, run.state.results, runId, attempt);
      RunNodeOk(steps, db, run, ctx, attempt, w);
      var nr := RunNode(db, node, ctx, run.state, attempt, w);
      match nr.outcome {
        case NodeDone(_, _) => DoneOk(steps, run, rows, runId, nr);
        case Retry(_, _) => RetryOk(steps, run, rows, runId, nr);
        case Exhausted(_, _) => ExhaustedOk(steps, run, rows, runId, nr);
        case Parked(_) => ParkedOk(steps, run, rows, runId, nr);
      }
    }
  }

  /** Under the lock the node under the cursor is never already completed in the journal. */
  lemma NodeNotReplayed(wf: Workflow, db: Db, runId: RunId)
    requires runId in db.runs && WellNamed(wf.steps) && db.runs[runId].currentStep < |wf.steps|
    requires RunOk(wf.steps, db.runs[runId], CompletedRows(db.journal, runId))
    ensures var found := Lookup(db.journal, runId, wf.steps[db.runs[runId].currentStep].name);
      found.Some? ==> found.value.status == RowFailed
  {
    var name := wf.steps[db.runs[runId].currentStep].name;
    var found := Lookup(db.journal, runId, name);
    if found.Some? && found.value.status == RowCompleted {
      LookupFindsRow(db.journal, runId, name);
      NothingJournaledYet(wf.steps, db.runs[runId], CompletedRows(db.journal, runId), found.value.result);
      assert false;
    }
  }

  lemma OnlyAwaiting(awaiting: seq<(string, string)>, name: string, signal: string)
    requires |awaiting| == 1 && awaiting[0].0 == name
    ensures DropAwaiting(awaiting, name) == []
    ensures FindAwaiting(awaiting, signal).Some? ==> FindAwaiting(awaiting, signal) == Some(name)
  {
  }

  lemma SignalledShape(steps: seq<Node>, run: Run, payload: Value)
    requires run.currentStep < |steps| && ShapeOk(steps, run) && steps[run.currentStep].WaitForSignal?
    requires run.state.stepAttempts == map[] && run.state.awaitingSignals != []
    ensures var name := steps[run.currentStep].name;
      SignalMove(run, 0, name, payload).run.state == EMPTY_STATE.(results := run.state.results[name := payload])
  {
    var st := run.state;
    assert st.loopState == map[] && st.childRunIds == map[] && st.sleepMarks == map[];
  }

  lemma SignalMoveOk(steps: seq<Node>, run: Run, runId: RunId, rows: seq<Entry>, signal: string, payload: Value)
    requires WellNamed(steps) && RunOk(steps, run, rows) && run.status == Waiting
    requires FindAwaiting(run.state.awaitingSignals, signal).Some?
    ensures var name := FindAwaiting(run.state.awaitingSignals, signal).value;
      var move := SignalMove(run, runId, name, payload);
      && run.currentStep < |steps| && name == steps[run.currentStep].name
      && steps[run.currentStep].WaitForSignal?
      && RunOk(steps, move.run, rows + CompletedRows(move.rows, runId))
  {
    var node := steps[run.currentStep];
    OnlyAwaiting(run.state.awaitingSignals, node.name, signal);
    var move := SignalMove(run, runId, node.name, payload);
    SignalledShape(steps, run, payload);
    OneRow(move.rows[0], runId);
    CursorNameIsNew(steps, run.currentStep);
    SteppedOk(steps, move.run, run.state.results, payload, CurrentRows(steps, run), CompletedRows(move.rows, runId));
  }
}
