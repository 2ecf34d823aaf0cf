/** Termination: runs without sleeps, signals or children finish within a computable number of
    deliveries, and no loop body completes more often than its bound allows. */
module DurableTermination {
  import opened Prelude
  import opened DurableTypes
  import opened DurableSpec
  import opened DurableJournal
  import opened DurableRunInvariant
  import opened DurableReachable
  import opened DurableChange
  import opened DurableTokens

  // ----- The measure ------------------------------------------------------------------------------------

  ghost predicate Timeless(steps: seq<Node>) {
    forall i :: 0 <= i < |steps| ==> Retried(steps[i])
  }

  ghost predicate TimelessRun(reg: Registry, run: Run) {
    run.workflow in reg && Timeless(reg[run.workflow].steps)
  }

  function Max(a: int, b: int): int {
    if a < b then b else a
  }

  /** Deliveries one node can take: its attempts, and for a loop one more per iteration. */
  function NodeLeft(node: Node, iteration: nat, failed: nat): nat
    requires Retried(node)
  {
    Max(1, node.maxAttempts - failed) + (if node.Loop? then Max(0, node.maxIterations - iteration) else 0)
  }

  function CostFrom(steps: seq<Node>, n: nat): nat
    requires Timeless(steps)
    decreases |steps| - n
  {
    if n >= |steps| then 0 else NodeLeft(steps[n], 0, 0) + CostFrom(steps, n + 1)
  }

  /** Deliveries a run can still take before it is completed or failed. */
  function Left(steps: seq<Node>, run: Run): nat
    requires Timeless(steps)
  {
    if Terminal(run.status) then 0
    else if run.status == Compensating then 1
    else if run.currentStep >= |steps| then 1
    else
      var node := steps[run.currentStep];
      1 + NodeLeft(node, SlotOf(run.state, node.name).iteration, Attempt(run.state, node.name) - 1)
        + CostFrom(steps, run.currentStep + 1)
  }

  /** Enough deliveries for any run of the workflow. */
  function Bound(steps: seq<Node>): nat
    requires Timeless(steps)
  {
    1 + CostFrom(steps, 0)
  }

  // ----- One advance ------------------------------------------------------------------------------------

  /** What a single run of a retried node does to its own share of the measure. */
  predicate NodeCloser(node: Node, st: State, nr: NodeRun, attempt: nat)
    requires Retried(node) && attempt > 0
  {
    var before := NodeLeft(node, SlotOf(st, node.name).iteration, attempt - 1);
    var after := SlotOf(nr.state, node.name).iteration;
    match nr.outcome
    case NodeDone(_, _) => true
    case Exhausted(_, _) => true
    case Retry(failed, _) => failed == attempt && NodeLeft(node, after, failed) < before
    case Parked(_) => NodeLeft(node, after, attempt - 1) < before
  }

  lemma NodeRunCloser(db: Db, node: Node, ctx: Ctx, st: State, attempt: nat, w: World)
    requires Retried(node) && attempt > 0
    requires node.Loop? && SlotOf(st, node.name).iteration < node.maxIterations ==>
      ReplaySlot(db.journal, ctx.runId, node, st) == SlotOf(st, node.name)
    ensures NodeCloser(node, st, RunNode(db, node, ctx, st, attempt, w), attempt)
  {
  }

  lemma OutcomeCloser(steps: seq<Node>, run: Run, r: RunId, nr: NodeRun, effects: seq<Effect>)
    requires WellNamed(steps) && Timeless(steps) && run.currentStep < |steps|
    requires run.status in {Pending, Running, Waiting}
    requires NodeRunOk(steps, run, r, nr) && nr.state.awaitingSignals == []
    requires nr.state.stepAttempts == run.state.stepAttempts
    requires NodeCloser(steps[run.currentStep], run.state, nr, Attempt(run.state, steps[run.currentStep].name))
    ensures Left(steps, ApplyOutcome(run, r, steps[run.currentStep], nr, effects).run) < Left(steps, run)
  {
    var node := steps[run.currentStep];
    var after := ApplyOutcome(run, r, node, nr, effects).run;
    if nr.outcome.NodeDone? {
      SettledShape(steps, run, nr, nr.outcome.value);
      assert after.state == EMPTY_STATE.(results := after.state.results);
      FreshLeft(steps, after);
    } else {
      StayedCloser(steps, run, r, nr, effects);
    }
  }

  lemma StayedCloser(steps: seq<Node>, run: Run, r: RunId, nr: NodeRun, effects: seq<Effect>)
    requires Timeless(steps) && run.currentStep < |steps| && run.status in {Pending, Running, Waiting}
    requires nr.state.stepAttempts == run.state.stepAttempts && !nr.outcome.NodeDone?
    requires NodeCloser(steps[run.currentStep], run.state, nr, Attempt(run.state, steps[run.currentStep].name))
    ensures Left(steps, ApplyOutcome(run, r, steps[run.currentStep], nr, effects).run) < Left(steps, run)
  {
  }

  lemma FreshLeft(steps: seq<Node>, run: Run)
    requires Timeless(steps) && run.state == EMPTY_STATE.(results := run.state.results)
    requires run.status in {Pending, Running, Waiting}
    ensures Left(steps, run) == 1 + CostFrom(steps, run.currentStep)
  {
  }

  /** Every advance of a run that is moving forward brings it strictly closer to its end. */
  lemma AdvanceCloser(wf: Workflow, db: Db, r: RunId, w: World)
    requires r in db.runs && WellNamed(wf.steps) && Timeless(wf.steps)
    requires db.runs[r].status in {Pending, Running, Waiting}
    requires RunOk(wf.steps, db.runs[r], CompletedRows(db.journal, r))
    ensures Left(wf.steps, AdvanceMove(wf, db, r, w).run) < Left(wf.steps, db.runs[r])
  {
    var run := db.runs[r];
    if run.currentStep < |wf.steps| {
      NodeNotReplayed(wf, db, r);
      var node := wf.steps[run.currentStep];
      var attempt := Attempt(run.state, node.name);
      var ctx := Ctx(run.input, run.state.results, r, attempt);
      if node.Loop? && SlotOf(run.state, node.name).iteration < node.maxIterations {
        SlotNotReplayed(wf.steps, db, run, r);
      }
      RunNodeOk(wf.steps, db, run, ctx, attempt, w);
      NodeRunCloser(db, node, ctx, run.state, attempt, w);
      AttemptsKept(db, node, ctx, run.state, attempt, w);
      OutcomeCloser(wf.steps, run, r, RunNode(db, node, ctx, run.state, attempt, w), []);
    }
  }

  // ----- Counting deliveries ------------------------------------------------------------------------------

  /** Whether an event takes a job of this run off the queue. */
  predicate DeliversTo(db: Db, event: Event, r: RunId) {
    event.Deliver? && event.job in db.jobs && db.jobs[event.job].runId == r
  }

  function Deliveries(reg: Registry, events: seq<Event>, r: RunId): nat {
    if events == [] then 0
    else
      var init := events[..|events| - 1];
      Deliveries(reg, init, r) + (if DeliversTo(Exec(reg, init), events[|events| - 1], r) then 1 else 0)
  }

  lemma AdvanceDeliveryCloser(reg: Registry, db: Db, r: RunId, w: World)
    requires RegistryOk(reg) && Known(reg, db) && r in db.runs && Timeless(reg[db.runs[r].workflow].steps)
    requires db.runs[r].status in {Pending, Running, Waiting}
    requires RunOk(reg[db.runs[r].workflow].steps, db.runs[r], CompletedRows(db.journal, r))
    ensures Closer(reg, db, Advance(reg, db, r, w), r)
  {
    var wf := reg[db.runs[r].workflow];
    AdvanceIsMove(reg, db, r, w);
    AdvanceCloser(wf, db, r, w);
    AdvanceMoveOwn(wf, db, r, w);
    ApplyMoveRuns(db, r, AdvanceMove(wf, db, r, w));
  }

  ghost predicate Closer(reg: Registry, db: Db, after: Db, r: RunId)
    requires r in db.runs && db.runs[r].workflow in reg && Timeless(reg[db.runs[r].workflow].steps)
  {
    && r in after.runs && after.runs[r].workflow == db.runs[r].workflow
    && Left(reg[db.runs[r].workflow].steps, after.runs[r]) < Left(reg[db.runs[r].workflow].steps, db.runs[r])
  }

  lemma CompensateDeliveryCloser(reg: Registry, db: Db, r: RunId, w: World)
    requires Known(reg, db) && r in db.runs && Timeless(reg[db.runs[r].workflow].steps)
    requires db.runs[r].status == Compensating
    ensures Closer(reg, db, Compensate(reg, db, r, w), r)
  {
    ApplyMoveRuns(db, r, CompensateMove(reg[db.runs[r].workflow], db, r, w));
  }

  lemma DeliveryCloser(reg: Registry, db: Db, job: nat, w: World)
    requires RegistryOk(reg) && Known(reg, db) && TokensOk(reg, db) && job in db.jobs
    requires Timeless(reg[db.runs[db.jobs[job].runId].workflow].steps)
    requires var r := db.jobs[job].runId;
      RunOk(reg[db.runs[r].workflow].steps, db.runs[r], CompletedRows(db.journal, r))
    ensures Closer(reg, db, Next(reg, db, Deliver(job, w)), db.jobs[job].runId)
  {
    TokenTaken(reg, db, job);
    var taken := db.(jobs := db.jobs - {job});
    match db.jobs[job] {
      case AdvanceJob(r, _) => AdvanceDeliveryCloser(reg, taken, r, w);
      case CompensateJob(r) => CompensateDeliveryCloser(reg, taken, r, w);
    }
  }

  /** An event that delivers nothing to a run without signals leaves that run alone. */
  lemma OthersLeaveRun(reg: Registry, db: Db, event: Event, r: RunId)
    requires RegistryOk(reg) && Known(reg, db) && r in db.runs && !event.Redeliver?
    requires Timeless(reg[db.runs[r].workflow].steps) && db.runs[r].state.awaitingSignals == []
    requires !DeliversTo(db, event, r)
    ensures r in Next(reg, db, event).runs && Next(reg, db, event).runs[r] == db.runs[r]
  {
    match event {
      case StartEvent(_, _) =>
      case SignalEvent(q, signal, payload) =>
        if SignalTarget(db, q, signal).Some? {
          ApplyMoveRuns(db, q, SignalMove(db.runs[q], q, SignalTarget(db, q, signal).value, payload));
        }
      case Deliver(job, w) =>
        if job in db.jobs {
          DeliveryElsewhere(reg, db.(jobs := db.jobs - {job}), db.jobs[job], w, r);
        }
    }
  }

  lemma DeliveryElsewhere(reg: Registry, db: Db, job: Job, w: World, r: RunId)
    requires Known(reg, db) && r in db.runs && job.runId != r
    ensures r in Handle(reg, db, job, w).runs && Handle(reg, db, job, w).runs[r] == db.runs[r]
  {
    match job {
      case AdvanceJob(q, _) => OtherRunKept(reg, db, q, w, r);
      case CompensateJob(q) =>
        if q in db.runs && db.runs[q].status == Compensating {
          ApplyMoveRuns(db, q, CompensateMove(reg[db.runs[q].workflow], db, q, w));
        }
    }
  }

  lemma NoSignalsAwaited(steps: seq<Node>, run: Run, rows: seq<Entry>)
    requires Timeless(steps) && RunOk(steps, run, rows)
    ensures run.state.awaitingSignals == []
  {
  }

  lemma {:induction false} DeliveriesBounded(reg: Registry, events: seq<Event>, r: RunId)
    requires RegistryOk(reg) && ExactlyOnce(events)
    requires r in Exec(reg, events).runs ==> TimelessRun(reg, Exec(reg, events).runs[r])
    ensures r !in Exec(reg, events).runs ==> Deliveries(reg, events, r) == 0
    ensures r in Exec(reg, events).runs ==>
      var steps := reg[Exec(reg, events).runs[r].workflow].steps;
      Left(steps, Exec(reg, events).runs[r]) + Deliveries(reg, events, r) <= Bound(steps)
  {
    if events != [] {
      var init, event := events[..|events| - 1], events[|events| - 1];
      ReachableOk(reg, init);
      OneToken(reg, init);
      DbOkKnown(reg, Exec(reg, init));
      if r in Exec(reg, init).runs {
        KeepsRun(reg, Exec(reg, init), event, r);
      }
      DeliveriesBounded(reg, init, r);
      BoundedStep(reg, Exec(reg, init), event, r);
    }
  }

  lemma KeepsRun(reg: Registry, db: Db, event: Event, r: RunId)
    requires RegistryOk(reg) && Known(reg, db) && r in db.runs
    ensures r in Next(reg, db, event).runs && Next(reg, db, event).runs[r].workflow == db.runs[r].workflow
  {
    RunsStay(reg, db, event, r);
    var change := NextChange(reg, db, event, r);
    if change.Advanced? {
      AdvanceMoveOwn(reg[db.runs[r].workflow], db, r, change.w);
    }
  }

  lemma RunsStay(reg: Registry, db: Db, event: Event, r: RunId)
    requires r in db.runs
    ensures r in Next(reg, db, event).runs
  {
  }

  lemma BoundedStep(reg: Registry, db: Db, event: Event, r: RunId)
    requires RegistryOk(reg) && DbOk(reg, db) && TokensOk(reg, db) && !event.Redeliver?
    requires r in db.runs ==> Timeless(reg[db.runs[r].workflow].steps)
    requires r !in db.runs && r in Next(reg, db, event).runs ==> TimelessRun(reg, Next(reg, db, event).runs[r])
    ensures r in db.runs ==>
      var steps := reg[db.runs[r].workflow].steps;
      && r in Next(reg, db, event).runs && Next(reg, db, event).runs[r].workflow == db.runs[r].workflow
      && Left(steps, Next(reg, db, event).runs[r]) + (if DeliversTo(db, event, r) then 1 else 0)
           <= Left(steps, db.runs[r])
    ensures r !in db.runs ==> !DeliversTo(db, event, r)
    ensures r !in db.runs && r in Next(reg, db, event).runs ==>
      var steps := reg[Next(reg, db, event).runs[r].workflow].steps;
      Left(steps, Next(reg, db, event).runs[r]) == Bound(steps)
  {
    DbOkKnown(reg, db);
    if r in db.runs {
      if DeliversTo(db, event, r) {
        DeliveryCloser(reg, db, event.job, event.w);
      } else {
        NoSignalsAwaited(reg[db.runs[r].workflow].steps, db.runs[r], CompletedRows(db.journal, r));
        OthersLeaveRun(reg, db, event, r);
      }
    } else if r in Next(reg, db, event).runs {
      var change := NextChange(reg, db, event, r);
      FreshLeft(reg[Next(reg, db, event).runs[r].workflow].steps, Next(reg, db, event).runs[r]);
    }
  }

  /** Bounded termination, with exactly-once delivery: a run of a workflow without sleeps,
      signals and children is delivered to at most `Bound` times, and after that many
      deliveries it is completed or failed. */
  lemma FinishesInTime(reg: Registry, events: seq<Event>, r: RunId)
    requires RegistryOk(reg) && ExactlyOnce(events) && r in Exec(reg, events).runs
    requires TimelessRun(reg, Exec(reg, events).runs[r])
    ensures var run := Exec(reg, events).runs[r];
      var bound := Bound(reg[run.workflow].steps);
      && Deliveries(reg, events, r) <= bound
      && (Deliveries(reg, events, r) == bound ==> Terminal(run.status))
  {
    DeliveriesBounded(reg, events, r);
  }

  /** Until such a run has finished it has a pending job, and delivering it brings the run
      strictly closer to its end whatever the callbacks answer. */
  lemma EveryDeliveryCounts(reg: Registry, events: seq<Event>, r: RunId)
    requires RegistryOk(reg) && ExactlyOnce(events) && r in Exec(reg, events).runs
    requires TimelessRun(reg, Exec(reg, events).runs[r])
    ensures var db := Exec(reg, events);
      && (Terminal(db.runs[r].status) || exists j :: j in db.jobs && db.jobs[j].runId == r)
      && (forall j, w :: j in db.jobs && db.jobs[j].runId == r ==> Closer(reg, db, Next(reg, db, Deliver(j, w)), r))
  {
    var db := Exec(reg, events);
    ReachableOk(reg, events);
    OneToken(reg, events);
    DbOkKnown(reg, db);
    StillMoving(reg, db, r);
  }

  lemma StillMoving(reg: Registry, db: Db, r: RunId)
    requires RegistryOk(reg) && Known(reg, db) && TokensOk(reg, db) && r in db.runs
    requires Timeless(reg[db.runs[r].workflow].steps)
    requires RunOk(reg[db.runs[r].workflow].steps, db.runs[r], CompletedRows(db.journal, r))
    ensures Terminal(db.runs[r].status) || exists j :: j in db.jobs && db.jobs[j].runId == r
    ensures forall j, w :: j in db.jobs && db.jobs[j].runId == r ==> Closer(reg, db, Next(reg, db, Deliver(j, w)), r)
  {
    assert HasToken(db.jobs, r, Needed(reg[db.runs[r].workflow].steps, db.runs[r]));
    forall j, w | j in db.jobs && db.jobs[j].runId == r
      ensures Closer(reg, db, Next(reg, db, Deliver(j, w)), r)
    {
      DeliveryCloser(reg, db, j, w);
    }
  }

  // ----- Loops are bounded ---------------------------------------------------------------------------------

  /** Every finished loop holds a list shorter than its bound: a loop that reaches its bound fails. */
  ghost predicate LoopsBounded(steps: seq<Node>, run: Run)
    requires run.currentStep <= |steps|
  {
    forall i :: 0 <= i < run.currentStep && steps[i].Loop? ==>
      && steps[i].name in run.state.results
      && run.state.results[steps[i].name].List?
      && |run.state.results[steps[i].name].items| < steps[i].maxIterations
  }

  lemma DoneBounded(steps: seq<Node>, run: Run, r: RunId, nr: NodeRun, effects: seq<Effect>)
    requires WellNamed(steps) && run.currentStep < |steps| && NodeRunOk(steps, run, r, nr)
    requires LoopsBounded(steps, run)
    ensures LoopsBounded(steps, ApplyOutcome(run, r, steps[run.currentStep], nr, effects).run)
  {
  }

  lemma AdvanceBounded(wf: Workflow, db: Db, r: RunId, w: World)
    requires r in db.runs && WellNamed(wf.steps) && RunOk(wf.steps, db.runs[r], CompletedRows(db.journal, r))
    requires LoopsBounded(wf.steps, db.runs[r])
    ensures AdvanceMove(wf, db, r, w).run.currentStep <= |wf.steps|
    ensures LoopsBounded(wf.steps, AdvanceMove(wf, db, r, w).run)
  {
    var run := db.runs[r];
    if run.currentStep < |wf.steps| {
      NodeNotReplayed(wf, db, r);
      var node := wf.steps[run.currentStep];
      var attempt := Attempt(run.state, node.name);
      var ctx := Ctx(run.input, run.state.results, r, attempt);
      RunNodeOk(wf.steps, db, run, ctx, attempt, w);
      DoneBounded(wf.steps, run, r, RunNode(db, node, ctx, run.state, attempt, w), []);
    }
  }

  lemma ChangeBounded(reg: Registry, db: Db, r: RunId, after: Run, change: Change)
    requires RegistryOk(reg) && after.workflow in reg && Explains(reg, db, r, after, change)
    requires r in db.runs ==> db.runs[r].workflow == after.workflow
    requires r in db.runs ==> RunOk(reg[after.workflow].steps, db.runs[r], CompletedRows(db.journal, r))
    requires r in db.runs ==> LoopsBounded(reg[after.workflow].steps, db.runs[r])
    ensures after.currentStep <= |reg[after.workflow].steps| && LoopsBounded(reg[after.workflow].steps, after)
  {
    match change {
      case Untouched =>
      case Created(_, _) =>
      case Advanced(w) => AdvanceBounded(reg[after.workflow], db, r, w);
      case RolledBack =>
      case Signalled(signal, payload) => SignalBounded(reg[after.workflow].steps, db.runs[r], r,
        CompletedRows(db.journal, r), signal, payload);
    }
  }

  lemma SignalBounded(steps: seq<Node>, run: Run, r: RunId, rows: seq<Entry>, signal: string, payload: Value)
    requires WellNamed(steps) && RunOk(steps, run, rows) && run.status == Waiting && LoopsBounded(steps, run)
    requires FindAwaiting(run.state.awaitingSignals, signal).Some?
    ensures var after := SignalMove(run, r, FindAwaiting(run.state.awaitingSignals, signal).value, payload).run;
      after.currentStep <= |steps| && LoopsBounded(steps, after)
  {
    SignalMoveOk(steps, run, r, rows, signal, payload);
  }

  lemma NextBounded(reg: Registry, db: Db, event: Event, r: RunId)
    requires RegistryOk(reg) && DbOk(reg, db) && r in Next(reg, db, event).runs
    requires r in db.runs ==> LoopsBounded(reg[db.runs[r].workflow].steps, db.runs[r])
    ensures var after := Next(reg, db, event).runs[r];
      && after.workflow in reg && after.currentStep <= |reg[after.workflow].steps|
      && LoopsBounded(reg[after.workflow].steps, after)
  {
    DbOkKnown(reg, db);
    var change := NextChange(reg, db, event, r);
    if r in db.runs {
      KeepsRun(reg, db, event, r);
    }
    ChangeBounded(reg, db, r, Next(reg, db, event).runs[r], change);
  }

  lemma {:induction false} ReachableBounded(reg: Registry, events: seq<Event>, r: RunId)
    requires RegistryOk(reg) && r in Exec(reg, events).runs
    ensures var run := Exec(reg, events).runs[r];
      && run.workflow in reg && run.currentStep <= |reg[run.workflow].steps|
      && LoopsBounded(reg[run.workflow].steps, run)
  {
    if events != [] {
      var init := events[..|events| - 1];
      ReachableOk(reg, init);
      if r in Exec(reg, init).runs {
        ReachableBounded(reg, init, r);
      }
      NextBounded(reg, Exec(reg, init), events[|events| - 1], r);
    }
  }

  /** However jobs are redelivered, no loop body of a run is ever recorded as completed in an
      iteration at or beyond the loop's bound: a row under such a key is that of a node of this
      very name. With `CompletedAtMostOnce` that makes at most `maxIterations` completions. */
  lemma LoopBodiesBounded(reg: Registry, events: seq<Event>, r: RunId, i: nat, k: nat, v: Value)
    requires RegistryOk(reg) && r in Exec(reg, events).runs
    requires Exec(reg, events).runs[r].workflow in reg
    requires i < |reg[Exec(reg, events).runs[r].workflow].steps|
    requires reg[Exec(reg, events).runs[r].workflow].steps[i].Loop?
    requires (IterKey(reg[Exec(reg, events).runs[r].workflow].steps[i].name, k), v)
      in CompletedRows(Exec(reg, events).journal, r)
    ensures var steps := reg[Exec(reg, events).runs[r].workflow].steps;
      k < steps[i].maxIterations || exists j :: 0 <= j < |steps| && steps[j].name == IterKey(steps[i].name, k)
  {
    ReachableOk(reg, events);
    var run := Exec(reg, events).runs[r];
    var steps := reg[run.workflow].steps;
    IterationNamed(steps, run, CompletedRows(Exec(reg, events).journal, r), i, k, v);
  }

  lemma IterationNamed(steps: seq<Node>, run: Run, rows: seq<Entry>, i: nat, k: nat, v: Value)
    requires WellNamed(steps) && RunOk(steps, run, rows) && i < |steps| && steps[i].Loop?
    requires (IterKey(steps[i].name, k), v) in rows
    ensures k < steps[i].maxIterations || exists j :: 0 <= j < |steps| && steps[j].name == IterKey(steps[i].name, k)
  {
    RowNamed(steps, run, rows, (IterKey(steps[i].name, k), v));
    var j :| 0 <= j < |steps| && NamedBy(steps[j], LoopBound(steps[j]), IterKey(steps[i].name, k));
    if steps[j].name != IterKey(steps[i].name, k) {
      var l: nat :| l < LoopBound(steps[j]) && IterKey(steps[j].name, l) == IterKey(steps[i].name, k);
      IterKeyInjective(steps[j].name, l, steps[i].name, k);
      SameNode(steps, i, j);
    }
  }

  lemma SameNode(steps: seq<Node>, i: nat, j: nat)
    requires WellNamed(steps) && i < |steps| && j < |steps| && steps[i].name == steps[j].name
    ensures i == j
  {
  }

  lemma RowNamed(steps: seq<Node>, run: Run, rows: seq<Entry>, entry: Entry)
    requires RunOk(steps, run, rows) && entry in rows
    ensures exists j :: 0 <= j < |steps| && NamedBy(steps[j], LoopBound(steps[j]), entry.0)
  {
    if entry in PastRows(steps, run.currentStep, run.state.results) {
      PastRowNames(steps, run.currentStep, run.state.results, entry);
      var j :| 0 <= j < run.currentStep && NamedBy(steps[j], PastBound(steps[j]), entry.0);
      assert NamedBy(steps[j], LoopBound(steps[j]), entry.0);
    } else {
      var node := steps[run.currentStep];
      IterRowsNamed(node, SlotOf(run.state, node.name).results, node.maxIterations, entry);
      assert NamedBy(node, LoopBound(node), entry.0);
    }
  }

  /** Every loop the cursor has passed has stopped short of its bound, and its result says how
      many bodies completed. */
  lemma FinishedLoops(reg: Registry, events: seq<Event>, r: RunId, i: nat)
    requires RegistryOk(reg) && r in Exec(reg, events).runs && Exec(reg, events).runs[r].workflow in reg
    requires i < Exec(reg, events).runs[r].currentStep <= |reg[Exec(reg, events).runs[r].workflow].steps|
    requires reg[Exec(reg, events).runs[r].workflow].steps[i].Loop?
    ensures var run := Exec(reg, events).runs[r];
      var node := reg[run.workflow].steps[i];
      && node.name in run.state.results && run.state.results[node.name].List?
      && |run.state.results[node.name].items| < node.maxIterations
  {
    ReachableBounded(reg, events, r);
  }
}
