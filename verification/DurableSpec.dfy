/** The engine's four transitions as functions of the tables, and runs as event sequences. */
module DurableSpec {
  import opened Prelude
  import opened DurableTypes

  // ----- Nodes ---------------------------------------------------------------------------

  /** What running one node produced: its outcome, the changed state, journal rows written
      on the way, and a child to start. */
  datatype NodeRun = NodeRun(outcome: Outcome, state: State, rows: seq<JournalRow>, spawn: Option<ChildSpec>)

  function StepLike(node: Node, attempt: nat, w: World, result: Result<Value, string>): Outcome
    requires node.Step? || node.Parallel? || node.Route? || node.Loop?
  {
    match result
    case Ok(value) => NodeDone(value, attempt)
    case Err(error) =>
      if attempt < node.maxAttempts then Retry(attempt, AtLeast(0.0, node.backoff(attempt, w)))
      else Exhausted(attempt, error)
  }

  /** The branches' rejections, in declaration order. Every branch is started in any case. */
  function Rejections(branches: seq<(string, Handler)>, ctx: Ctx, w: World): seq<string> {
    if branches == [] then []
    else
      var last := |branches| - 1;
      Rejections(branches[..last], ctx, w)
      + match branches[last].1(ctx, w)
        case Err(error) => [error]
        case Ok(_) => []
  }

  /** What the other branches resolve to, by key. */
  function BranchResults(branches: seq<(string, Handler)>, ctx: Ctx, w: World): map<string, Value> {
    if branches == [] then map[]
    else
      var last := |branches| - 1;
      var results := BranchResults(branches[..last], ctx, w);
      match branches[last].1(ctx, w)
      case Err(_) => results
      case Ok(value) => results[branches[last].0 := value]
  }

  /** `Promise.all` over the branches: every result, or the rejection that settles first. Which
      one that is depends on the world. */
  function AllBranches(branches: seq<(string, Handler)>, ctx: Ctx, w: World): Result<map<string, Value>, string> {
    var rejections := Rejections(branches, ctx, w);
    if rejections == [] then Ok(BranchResults(branches, ctx, w)) else Err(rejections[w.nonce % |rejections|])
  }

  function RunHandler(node: Node, ctx: Ctx, w: World): Result<Value, string>
    requires node.Step? || node.Parallel? || node.Route?
  {
    match node
    case Step(_, handler, _, _, _) => handler(ctx, w)
    case Parallel(_, branches, _, _) =>
      (match AllBranches(branches, ctx, w)
       case Err(error) => Err(error)
       case Ok(results) => Ok(Record(results)))
    case Route(name, select, branches, _, _) =>
      match select(ctx, w)
      case Err(error) => Err(error)
      case Ok(key) =>
        match FindBranch(branches, key)
        case None => Err(UnknownBranchError(name, key, branches))
        case Some(handler) =>
          match handler(ctx, w)
          case Err(error) => Err(error)
          case Ok(value) => Ok(Record(map["branch" := Str(key), "result" := value]))
  }

  function SleepSeconds(node: Node, ctx: Ctx, w: World): nat
    requires node.Sleep?
  {
    var requested := node.delay(ctx, w).Floor;
    if requested < 0 then 0 else requested
  }

  function SleptValue(seconds: nat): Value {
    Record(map["sleptSec" := Num(seconds as real)])
  }

  function RunSleep(node: Node, ctx: Ctx, st: State, attempt: nat, w: World): NodeRun
    requires node.Sleep?
  {
    var seconds := SleepSeconds(node, ctx, w);
    if node.name in st.sleepMarks then
      var elapsed := (w.nowMs - st.sleepMarks[node.name]) as real / 1000.0;
      if elapsed >= seconds as real then NodeRun(NodeDone(SleptValue(seconds), attempt), st, [], None)
      else NodeRun(Parked(Some(AtLeast(1.0, seconds as real - elapsed))), st, [], None)
    else
      NodeRun(Parked(Some(seconds as real)), st.(sleepMarks := st.sleepMarks[node.name := w.nowMs]), [], None)
  }

  function RunWait(node: Node, ctx: Ctx, st: State, w: World): NodeRun
    requires node.WaitForSignal?
  {
    var awaiting := SetAwaiting(st.awaitingSignals, node.name, node.signalName(ctx, w));
    NodeRun(Parked(None), st.(awaitingSignals := awaiting), [], None)
  }

  function SlotOf(st: State, name: string): Slot {
    if name in st.loopState then st.loopState[name] else Slot(0, [])
  }

  /** The loop slot after the replay check. The key of the iteration row is fixed before it. */
  function ReplaySlot(journal: seq<JournalRow>, runId: RunId, node: Node, st: State): Slot {
    var slot := SlotOf(st, node.name);
    match Lookup(journal, runId, IterKey(node.name, slot.iteration))
    case None => slot
    case Some(row) =>
      if row.status == RowCompleted then Slot(slot.iteration + 1, slot.results + [row.result]) else slot
  }

  function RunLoop(journal: seq<JournalRow>, node: Node, ctx: Ctx, st: State, attempt: nat, w: World): NodeRun
    requires node.Loop?
  {
    var key := IterKey(node.name, SlotOf(st, node.name).iteration);
    var slot := ReplaySlot(journal, ctx.runId, node, st);
    var st1 := st.(loopState := st.loopState[node.name := slot]);
    if slot.iteration >= node.maxIterations then
      NodeRun(Exhausted(attempt, LoopBoundError(node.maxIterations)), st1, [], None)
    else
      match node.condition(ctx, slot.iteration, w)
      case Err(error) => NodeRun(Exhausted(attempt, error), st1, [], None)
      case Ok(keepGoing) =>
        if !keepGoing then NodeRun(NodeDone(List(slot.results), attempt), st1, [], None)
        else RunBody(node, key, ctx, st1, slot, attempt, w)
  }

  function RunBody(node: Node, key: string, ctx: Ctx, st: State, slot: Slot, attempt: nat, w: World): NodeRun
    requires node.Loop?
  {
    match node.body(ctx, slot.iteration, w)
    case Err(error) => NodeRun(StepLike(node, attempt, w, Err(error)), st, [], None)
    case Ok(value) =>
      var next := Slot(slot.iteration + 1, slot.results + [value]);
      NodeRun(
        Parked(Some(0.0)),
        st.(loopState := st.loopState[node.name := next]),
        [JournalRow(ctx.runId, key, RowCompleted, value, None, attempt)],
        None)
  }

  /** `childId` is the id the child's run row will get if one is started. */
  function RunChild(runs: map<RunId, Run>, childId: RunId, node: Node, ctx: Ctx, st: State, attempt: nat, w: World)
    : NodeRun
    requires node.ChildWorkflow?
  {
    if node.name !in st.childRunIds then
      match node.start(ctx, w)
      case Err(error) =>
        NodeRun(if attempt < 1 then Retry(attempt, 0.0) else Exhausted(attempt, error), st, [], None)
      case Ok(spec) =>
        NodeRun(
          Parked(Some(node.pollIntervalSec)),
          st.(childRunIds := st.childRunIds[node.name := childId]),
          [],
          Some(spec))
    else
      NodeRun(PollChild(runs, st.childRunIds[node.name], node, attempt), st, [], None)
  }

  function PollChild(runs: map<RunId, Run>, child: RunId, node: Node, attempt: nat): Outcome
    requires node.ChildWorkflow?
  {
    if child !in runs then Exhausted(attempt, ChildGoneError(child))
    else
      match runs[child].status
      case Completed => NodeDone(ResultValue(runs[child]), attempt)
      case Failed => Exhausted(attempt, ErrorOr(runs[child], CHILD_FALLBACK_ERROR))
      case _ => Parked(Some(node.pollIntervalSec))
  }

  function ResultValue(run: Run): Value {
    if run.result.Some? then Record(run.result.value) else Null
  }

  function ErrorOr(run: Run, fallback: string): string {
    if run.error.Some? then run.error.value else fallback
  }

  function RunNode(db: Db, node: Node, ctx: Ctx, st: State, attempt: nat, w: World): NodeRun {
    match node
    case Sleep(_, _) => RunSleep(node, ctx, st, attempt, w)
    case WaitForSignal(_, _) => RunWait(node, ctx, st, w)
    case Loop(_, _, _, _, _, _) => RunLoop(db.journal, node, ctx, st, attempt, w)
    case ChildWorkflow(_, _, _) => RunChild(db.runs, db.nextRun, node, ctx, st, attempt, w)
    case _ => NodeRun(StepLike(node, attempt, w, RunHandler(node, ctx, w)), st, [], None)
  }

  // ----- One locked step on one run ------------------------------------------------------

  datatype Wake = NoWake | WakeAdvance(delaySec: real) | WakeCompensate

  /** Everything one transaction does to one run: its new row, the journal rows and effects
      it appends, the job it dispatches and the child it starts. */
  datatype Move = Move(run: Run, rows: seq<JournalRow>, effects: seq<Effect>, wake: Wake, spawn: Option<ChildSpec>)

  function Attempt(st: State, name: string): nat {
    (if name in st.stepAttempts then st.stepAttempts[name] else 0) + 1
  }

  /** The state once a node is done: its result stored and its own bookkeeping cleared. */
  function Settled(node: Node, st: State, value: Value): State {
    st.(
      results := st.results[node.name := value],
      stepAttempts := WithoutKey(st.stepAttempts, node.name),
      loopState := if node.Loop? then WithoutKey(st.loopState, node.name) else st.loopState,
      childRunIds := if node.ChildWorkflow? then WithoutKey(st.childRunIds, node.name) else st.childRunIds,
      sleepMarks := WithoutKey(st.sleepMarks, node.name))
  }

  function ApplyOutcome(run: Run, runId: RunId, node: Node, nr: NodeRun, effects: seq<Effect>): Move {
    match nr.outcome
    case NodeDone(value, attempt) =>
      Move(
        run.(status := Running, state := Settled(node, nr.state, value), currentStep := run.currentStep + 1),
        nr.rows + [JournalRow(runId, node.name, RowCompleted, value, None, attempt)],
        effects,
        WakeAdvance(0.0),
        nr.spawn)
    case Retry(attempt, delaySec) =>
      Move(
        run.(state := nr.state.(stepAttempts := nr.state.stepAttempts[node.name := attempt])),
        nr.rows,
        effects,
        WakeAdvance(delaySec),
        nr.spawn)
    case Exhausted(attempt, error) =>
      Move(
        run.(status := Compensating, state := nr.state, error := Some(error)),
        nr.rows + [JournalRow(runId, node.name, RowFailed, Null, Some(error), attempt)],
        effects,
        WakeCompensate,
        nr.spawn)
    case Parked(wakeAfter) =>
      Move(
        run.(status := Waiting, state := nr.state),
        nr.rows,
        effects,
        if wakeAfter.Some? then WakeAdvance(wakeAfter.value) else NoWake,
        nr.spawn)
  }

  function MarkCompleted(run: Run): Move {
    Move(
      run.(
        status := Completed,
        state := EMPTY_STATE.(results := run.state.results),
        result := Some(run.state.results)),
      [], [], NoWake, None)
  }

  function ReplayNode(run: Run, node: Node, value: Value): Move {
    Move(
      run.(
        status := Running,
        state := run.state.(results := run.state.results[node.name := value]),
        currentStep := run.currentStep + 1),
      [], [], WakeAdvance(0.0), None)
  }

  function AdvanceMove(wf: Workflow, db: Db, runId: RunId, w: World): Move
    requires runId in db.runs
  {
    var run := db.runs[runId];
    if run.currentStep >= |wf.steps| then MarkCompleted(run)
    else
      var node := wf.steps[run.currentStep];
      var journaled := Lookup(db.journal, runId, node.name);
      if journaled.Some? && journaled.value.status == RowCompleted then
        ReplayNode(run, node, journaled.value.result)
      else
        var attempt := Attempt(run.state, node.name);
        var ctx := Ctx(run.input, run.state.results, runId, attempt);
        var nr := RunNode(db, node, ctx, run.state, attempt, w);
        var effects := if nr.spawn.Some? then [ChildStarted(runId, node.name, db.nextRun)] else [];
        ApplyOutcome(run, runId, node, nr, effects)
  }

  function SignalMove(run: Run, runId: RunId, nodeName: string, payload: Value): Move {
    var st := run.state.(
      awaitingSignals := DropAwaiting(run.state.awaitingSignals, nodeName),
      results := run.state.results[nodeName := payload]);
    Move(
      run.(status := Running, state := st, currentStep := run.currentStep + 1),
      [JournalRow(runId, nodeName, RowCompleted, payload, None, 1)],
      [SignalAccepted(runId, nodeName, payload)],
      WakeAdvance(0.0),
      None)
  }

  /** Names of the run's completed journal rows, in insertion order. */
  function CompletedNames(journal: seq<JournalRow>, runId: RunId): seq<string> {
    if journal == [] then []
    else
      var row := journal[|journal| - 1];
      CompletedNames(journal[..|journal| - 1], runId)
      + (if row.runId == runId && row.status == RowCompleted then [row.stepName] else [])
  }

  function CompensateOne(wf: Workflow, name: string, ctx: Ctx, w: World): seq<Effect> {
    match FindNode(wf.steps, name)
    case None => []
    case Some(node) =>
      if !node.Step? || node.compensate.None? then []
      else
        [CompensatorCalled(ctx.runId, name, ctx)]
        + match node.compensate.value(ctx, w)
          case Ok(_) => []
          case Err(error) => [CompensatorThrew(ctx.runId, name, error)]
  }

  function CompensateAll(wf: Workflow, names: seq<string>, ctx: Ctx, w: World): seq<Effect> {
    if names == [] then []
    else CompensateAll(wf, names[..|names| - 1], ctx, w) + CompensateOne(wf, names[|names| - 1], ctx, w)
  }

  function CompensateMove(wf: Workflow, db: Db, runId: RunId, w: World): Move
    requires runId in db.runs
  {
    var run := db.runs[runId];
    var ctx := Ctx(run.input, run.state.results, runId, 1);
    var names := Reverse(CompletedNames(db.journal, runId));
    Move(run.(status := Failed), [], CompensateAll(wf, names, ctx, w), NoWake, None)
  }

  // ----- Steps on the tables -------------------------------------------------------------

  function Enqueue(db: Db, job: Job): Db {
    db.(jobs := db.jobs[db.nextJob := job], nextJob := db.nextJob + 1)
  }

  function NewRun(workflow: string, input: Value): Run {
    Run(workflow, input, Pending, EMPTY_STATE, 0, None, None)
  }

  function StartRun(db: Db, workflow: string, input: Value): Db {
    Enqueue(
      db.(runs := db.runs[db.nextRun := NewRun(workflow, input)], nextRun := db.nextRun + 1),
      AdvanceJob(db.nextRun, 0.0))
  }

  function WakeUp(db: Db, runId: RunId, wake: Wake): Db {
    match wake
    case NoWake => db
    case WakeAdvance(delaySec) => Enqueue(db, AdvanceJob(runId, delaySec))
    case WakeCompensate => Enqueue(db, CompensateJob(runId))
  }

  function ApplyMove(db: Db, runId: RunId, move: Move): Db {
    var db1 := if move.spawn.Some? then StartRun(db, move.spawn.value.workflow, move.spawn.value.input) else db;
    WakeUp(
      db1.(
        runs := db1.runs[runId := move.run],
        journal := db1.journal + move.rows,
        log := db1.log + move.effects),
      runId,
      move.wake)
  }

  predicate Terminal(status: Status) {
    status == Completed || status == Failed
  }

  /** The error `advance` throws, which rolls its transaction back: the run or its workflow
      is unknown, or the child it is about to start is. */
  function AdvanceError(reg: Registry, db: Db, runId: RunId, w: World): Option<Error> {
    if runId !in db.runs then Some(RunNotFound(runId))
    else if Terminal(db.runs[runId].status) then None
    else if db.runs[runId].workflow !in reg then Some(NotRegistered(db.runs[runId].workflow))
    else
      var spawn := AdvanceMove(reg[db.runs[runId].workflow], db, runId, w).spawn;
      if spawn.Some? && spawn.value.workflow !in reg then Some(NotRegistered(spawn.value.workflow)) else None
  }

  function Advance(reg: Registry, db: Db, runId: RunId, w: World): Db {
    if AdvanceError(reg, db, runId, w).Some? || Terminal(db.runs[runId].status) then db
    else ApplyMove(db, runId, AdvanceMove(reg[db.runs[runId].workflow], db, runId, w))
  }

  function CompensateError(reg: Registry, db: Db, runId: RunId): Option<Error> {
    if runId !in db.runs then Some(RunNotFound(runId))
    else if db.runs[runId].status != Compensating then None
    else if db.runs[runId].workflow !in reg then Some(NotRegistered(db.runs[runId].workflow))
    else None
  }

  function Compensate(reg: Registry, db: Db, runId: RunId, w: World): Db {
    if CompensateError(reg, db, runId).Some? || db.runs[runId].status != Compensating then db
    else ApplyMove(db, runId, CompensateMove(reg[db.runs[runId].workflow], db, runId, w))
  }

  /** The node a signal wakes, if the run is waiting for it. */
  function SignalTarget(db: Db, runId: RunId, signal: string): Option<string> {
    if runId in db.runs && db.runs[runId].status == Waiting then
      FindAwaiting(db.runs[runId].state.awaitingSignals, signal)
    else None
  }

  function Signal(db: Db, runId: RunId, signal: string, payload: Value): Db {
    match SignalTarget(db, runId, signal)
    case None => db
    case Some(nodeName) => ApplyMove(db, runId, SignalMove(db.runs[runId], runId, nodeName, payload))
  }

  function Start(reg: Registry, db: Db, workflow: string, input: Value): Db {
    if workflow !in reg then db else StartRun(db, workflow, input)
  }

  // ----- Runs of the whole system --------------------------------------------------------

  /** `Deliver` takes a pending job off the queue and runs it; `Redeliver` runs a job that
      is not (or no longer) on the queue: a duplicate or spurious delivery. */
  datatype Event =
    | StartEvent(workflow: string, input: Value)
    | Deliver(job: nat, w: World)
    | Redeliver(stray: Job, w: World)
    | SignalEvent(runId: RunId, signal: string, payload: Value)

  function Handle(reg: Registry, db: Db, job: Job, w: World): Db {
    match job
    case AdvanceJob(runId, _) => Advance(reg, db, runId, w)
    case CompensateJob(runId) => Compensate(reg, db, runId, w)
  }

  function Next(reg: Registry, db: Db, event: Event): Db {
    match event
    case StartEvent(workflow, input) => Start(reg, db, workflow, input)
    case Deliver(job, w) =>
      if job in db.jobs then Handle(reg, db.(jobs := db.jobs - {job}), db.jobs[job], w) else db
    case Redeliver(stray, w) => Handle(reg, db, stray, w)
    case SignalEvent(runId, signal, payload) => Signal(db, runId, signal, payload)
  }

  /** The tables after a sequence of events from the empty database. */
  function Exec(reg: Registry, events: seq<Event>): Db {
    if events == [] then EMPTY_DB
    else Next(reg, Exec(reg, events[..|events| - 1]), events[|events| - 1])
  }

  predicate ExactlyOnce(events: seq<Event>) {
    forall i :: 0 <= i < |events| ==> !events[i].Redeliver?
  }
}
