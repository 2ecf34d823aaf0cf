/** The table invariant holds in every reachable database, and what it says to a reader. */
module DurableReachable {
  import opened Prelude
  import opened DurableTypes
  import opened DurableSpec
  import opened DurableJournal
  import opened DurableRunInvariant

  ghost predicate RunsOk(reg: Registry, runs: map<RunId, Run>, journal: seq<JournalRow>) {
    forall r :: r in runs ==>
      && runs[r].workflow in reg
      && RunOk(reg[runs[r].workflow].steps, runs[r], CompletedRows(journal, r))
  }

  ghost predicate KeysOk(db: Db) {
    && (forall r :: r in db.runs ==> r < db.nextRun)
    && (forall i :: 0 <= i < |db.journal| ==> db.journal[i].runId in db.runs)
    && (forall j :: j in db.jobs ==> j < db.nextJob && db.jobs[j].runId in db.runs)
  }

  /** The part of the invariant that only says ids and workflow names resolve. */
  ghost predicate Known(reg: Registry, db: Db) {
    KeysOk(db) && forall r :: r in db.runs ==> db.runs[r].workflow in reg
  }

  ghost predicate DbOk(reg: Registry, db: Db) {
    KeysOk(db) && RunsOk(reg, db.runs, db.journal)
  }

  lemma DbOkKnown(reg: Registry, db: Db)
    requires DbOk(reg, db)
    ensures Known(reg, db)
  {
  }

  // ----- A move touches one run ----------------------------------------------------------------

  ghost predicate OwnRows(move: Move, runId: RunId) {
    forall i :: 0 <= i < |move.rows| ==> move.rows[i].runId == runId
  }

  ghost predicate SpawnKnown(reg: Registry, move: Move) {
    move.spawn.Some? ==> move.spawn.value.workflow in reg
  }

  function RunsAfter(db: Db, runId: RunId, move: Move): map<RunId, Run> {
    var runs := if move.spawn.Some?
                then db.runs[db.nextRun := NewRun(move.spawn.value.workflow, move.spawn.value.input)]
                else db.runs;
    runs[runId := move.run]
  }

  lemma ApplyMoveRuns(db: Db, runId: RunId, move: Move)
    ensures ApplyMove(db, runId, move).runs == RunsAfter(db, runId, move)
    ensures ApplyMove(db, runId, move).journal == db.journal + move.rows
    ensures ApplyMove(db, runId, move).log == db.log + move.effects
  {
  }

  lemma ApplyMoveKeys(db: Db, runId: RunId, move: Move)
    requires KeysOk(db) && runId in db.runs && OwnRows(move, runId)
    ensures KeysOk(ApplyMove(db, runId, move))
  {
    ApplyMoveRuns(db, runId, move);
  }

  lemma NewRunOk(reg: Registry, workflow: string, input: Value, journal: seq<JournalRow>, runId: RunId)
    requires workflow in reg && CompletedRows(journal, runId) == []
    ensures RunOk(reg[workflow].steps, NewRun(workflow, input), CompletedRows(journal, runId))
  {
    BlankRun(reg[workflow].steps, NewRun(workflow, input));
  }

  lemma OtherRunRows(journal: seq<JournalRow>, rows: seq<JournalRow>, runId: RunId)
    requires forall i :: 0 <= i < |rows| ==> rows[i].runId != runId
    ensures CompletedRows(journal + rows, runId) == CompletedRows(journal, runId)
  {
    CompletedRowsAppend(journal, rows, runId);
    OtherRunsRows(rows, runId);
  }

  lemma ApplyMoveRunsOk(reg: Registry, db: Db, runId: RunId, move: Move)
    requires DbOk(reg, db) && runId in db.runs && OwnRows(move, runId) && SpawnKnown(reg, move)
    requires move.run.workflow in reg
    requires RunOk(reg[move.run.workflow].steps, move.run,
      CompletedRows(db.journal, runId) + CompletedRows(move.rows, runId))
    ensures RunsOk(reg, RunsAfter(db, runId, move), db.journal + move.rows)
  {
    var runs, journal := RunsAfter(db, runId, move), db.journal + move.rows;
    forall r | r in runs
      ensures runs[r].workflow in reg && RunOk(reg[runs[r].workflow].steps, runs[r], CompletedRows(journal, r))
    {
      if r == runId {
        CompletedRowsAppend(db.journal, move.rows, r);
      } else {
        OtherRunRows(db.journal, move.rows, r);
        if r == db.nextRun && move.spawn.Some? {
          OtherRunsRows(db.journal, r);
          NewRunOk(reg, move.spawn.value.workflow, move.spawn.value.input, journal, r);
        } else {
          assert runs[r] == db.runs[r];
        }
      }
    }
  }

  lemma ApplyMoveOk(reg: Registry, db: Db, runId: RunId, move: Move)
    requires DbOk(reg, db) && runId in db.runs && OwnRows(move, runId) && SpawnKnown(reg, move)
    requires move.run.workflow in reg
    requires RunOk(reg[move.run.workflow].steps, move.run,
      CompletedRows(db.journal, runId) + CompletedRows(move.rows, runId))
    ensures DbOk(reg, ApplyMove(db, runId, move))
  {
    ApplyMoveRuns(db, runId, move);
    ApplyMoveKeys(db, runId, move);
    ApplyMoveRunsOk(reg, db, runId, move);
  }

  // ----- The three locked transitions ------------------------------------------------------------

  lemma RunNodeOwn(db: Db, node: Node, ctx: Ctx, st: State, attempt: nat, w: World)
    ensures var rows := RunNode(db, node, ctx, st, attempt, w).rows;
      forall i :: 0 <= i < |rows| ==> rows[i].runId == ctx.runId
  {
  }

  lemma OutcomeOwn(run: Run, runId: RunId, node: Node, nr: NodeRun, effects: seq<Effect>)
    requires forall i :: 0 <= i < |nr.rows| ==> nr.rows[i].runId == runId
    ensures var move := ApplyOutcome(run, runId, node, nr, effects);
      OwnRows(move, runId) && move.run.workflow == run.workflow && move.run.input == run.input
  {
  }

  lemma AdvanceMoveOwn(wf: Workflow, db: Db, runId: RunId, w: World)
    requires runId in db.runs
    ensures OwnRows(AdvanceMove(wf, db, runId, w), runId)
    ensures AdvanceMove(wf, db, runId, w).run.workflow == db.runs[runId].workflow
    ensures AdvanceMove(wf, db, runId, w).run.input == db.runs[runId].input
  {
    var run := db.runs[runId];
    if run.currentStep < |wf.steps| {
      var node := wf.steps[run.currentStep];
      var attempt := Attempt(run.state, node.name);
      var ctx := Ctx(run.input, run.state.results, runId, attempt);
      RunNodeOwn(db, node, ctx, run.state, attempt, w);
      var nr := RunNode(db, node, ctx, run.state, attempt, w);
      var effects := if nr.spawn.Some? then [ChildStarted(runId, node.name, db.nextRun)] else [];
      OutcomeOwn(run, runId, node, nr, effects);
    }
  }

  lemma AdvanceSpawnKnown(reg: Registry, wf: Workflow, db: Db, runId: RunId, w: World)
    requires runId in db.runs && ChildrenKnown(reg, wf.steps)
    ensures SpawnKnown(reg, AdvanceMove(wf, db, runId, w))
  {
    var move := AdvanceMove(wf, db, runId, w);
    if move.spawn.Some? {
      var node := wf.steps[db.runs[runId].currentStep];
      assert node.ChildWorkflow?;
    }
  }

  /** With a sound registry an advance of an unfinished run never throws. */
  lemma AdvanceIsMove(reg: Registry, db: Db, runId: RunId, w: World)
    requires RegistryOk(reg) && runId in db.runs && db.runs[runId].workflow in reg && !Terminal(db.runs[runId].status)
    ensures AdvanceError(reg, db, runId, w) == None
    ensures Advance(reg, db, runId, w) == ApplyMove(db, runId, AdvanceMove(reg[db.runs[runId].workflow], db, runId, w))
  {
    AdvanceSpawnKnown(reg, reg[db.runs[runId].workflow], db, runId, w);
  }

  lemma AdvanceOk(reg: Registry, db: Db, runId: RunId, w: World)
    requires RegistryOk(reg) && DbOk(reg, db)
    ensures DbOk(reg, Advance(reg, db, runId, w))
  {
    if runId in db.runs && !Terminal(db.runs[runId].status) {
      var wf := reg[db.runs[runId].workflow];
      AdvanceMoveOwn(wf, db, runId, w);
      AdvanceSpawnKnown(reg, wf, db, runId, w);
      AdvanceMoveOk(wf, db, runId, w);
      ApplyMoveOk(reg, db, runId, AdvanceMove(wf, db, runId, w));
    }
  }

  lemma FailedRunOk(steps: seq<Node>, run: Run, rows: seq<Entry>)
    requires RunOk(steps, run, rows) && run.status == Compensating
    ensures RunOk(steps, run.(status := Failed), rows + [])
  {
    NilRight(rows);
  }

  lemma CompensateOk(reg: Registry, db: Db, runId: RunId, w: World)
    requires RegistryOk(reg) && DbOk(reg, db)
    ensures DbOk(reg, Compensate(reg, db, runId, w))
  {
    if runId in db.runs && db.runs[runId].status == Compensating {
      var wf := reg[db.runs[runId].workflow];
      FailedRunOk(wf.steps, db.runs[runId], CompletedRows(db.journal, runId));
      ApplyMoveOk(reg, db, runId, CompensateMove(wf, db, runId, w));
    }
  }

  lemma SignalMoveOwn(run: Run, runId: RunId, nodeName: string, payload: Value)
    ensures var move := SignalMove(run, runId, nodeName, payload);
      OwnRows(move, runId) && move.spawn == None && move.run.workflow == run.workflow && move.run.input == run.input
  {
  }

  lemma SignalOk(reg: Registry, db: Db, runId: RunId, signal: string, payload: Value)
    requires RegistryOk(reg) && DbOk(reg, db)
    ensures DbOk(reg, Signal(db, runId, signal, payload))
  {
    var target := SignalTarget(db, runId, signal);
    if target.Some? {
      var run := db.runs[runId];
      SignalMoveOwn(run, runId, target.value, payload);
      SignalMoveOk(reg[run.workflow].steps, run, runId, CompletedRows(db.journal, runId), signal, payload);
      ApplyMoveOk(reg, db, runId, SignalMove(run, runId, target.value, payload));
    }
  }

  lemma StartKeys(db: Db, workflow: string, input: Value)
    requires KeysOk(db)
    ensures KeysOk(StartRun(db, workflow, input))
  {
  }

  lemma StartRunsOk(reg: Registry, db: Db, workflow: string, input: Value)
    requires DbOk(reg, db) && workflow in reg
    ensures RunsOk(reg, db.runs[db.nextRun := NewRun(workflow, input)], db.journal)
  {
    OtherRunsRows(db.journal, db.nextRun);
    NewRunOk(reg, workflow, input, db.journal, db.nextRun);
  }

  lemma StartOk(reg: Registry, db: Db, workflow: string, input: Value)
    requires DbOk(reg, db)
    ensures DbOk(reg, Start(reg, db, workflow, input))
  {
    if workflow in reg {
      StartKeys(db, workflow, input);
      StartRunsOk(reg, db, workflow, input);
    }
  }

  lemma NextOk(reg: Registry, db: Db, event: Event)
    requires RegistryOk(reg) && DbOk(reg, db)
    ensures DbOk(reg, Next(reg, db, event))
  {
    match event {
      case StartEvent(workflow, input) => StartOk(reg, db, workflow, input);
      case Deliver(job, w) =>
        if job in db.jobs {
          HandleOk(reg, db.(jobs := db.jobs - {job}), db.jobs[job], w);
        }
      case Redeliver(stray, w) => HandleOk(reg, db, stray, w);
      case SignalEvent(runId, signal, payload) => SignalOk(reg, db, runId, signal, payload);
    }
  }

  lemma HandleOk(reg: Registry, db: Db, job: Job, w: World)
    requires RegistryOk(reg) && DbOk(reg, db)
    ensures DbOk(reg, Handle(reg, db, job, w))
  {
    match job {
      case AdvanceJob(runId, _) => AdvanceOk(reg, db, runId, w);
      case CompensateJob(runId) => CompensateOk(reg, db, runId, w);
    }
  }

  /** Main invariant: it holds after any sequence of starts, deliveries, duplicate or
      spurious redeliveries and signals, with callbacks that may answer differently each time. */
  lemma {:induction false} ReachableOk(reg: Registry, events: seq<Event>)
    requires RegistryOk(reg)
    ensures DbOk(reg, Exec(reg, events))
  {
    if events != [] {
      ReachableOk(reg, events[..|events| - 1]);
      NextOk(reg, Exec(reg, events[..|events| - 1]), events[|events| - 1]);
    }
  }
}
