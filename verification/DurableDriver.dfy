/** Driving a run of calm callbacks to a chosen node, with every job delivered exactly once. */
module DurableDriver {
  import opened Prelude
  import opened DurableTypes
  import opened DurableSpec
  import opened DurableJournal
  import opened DurableRunInvariant
  import opened DurableReachable
  import opened DurableHistory
  import opened DurableTokens
  import opened DurableBigStep
  import opened DurableShapes
  import opened DurableSimulation
  import opened DurableInstances

  // ----- Driving a run to a node -------------------------------------------------------------------------

  /** The full workflow and its cut, both of calm callbacks. Below node `m` they agree, and every
      node passes. Behind it the cut has at most the loop `m` itself, with its rounds as bound. */
  datatype Setup = Setup(nodes: seq<Node>, m: nat, loop: nat, rounds: nat)

  predicate SetupOk(s: Setup) {
    && RoutesHaveBranches(s.nodes) && (forall i :: 0 <= i < |s.nodes| ==> !s.nodes[i].ChildWorkflow?)
    && s.m < |s.nodes|
    && (forall i :: 0 <= i < s.m && s.nodes[i].Loop? ==> RoundsOf(i, s.loop, s.rounds) < s.nodes[i].maxIterations)
    && (s.loop == s.m ==> s.nodes[s.m].Loop? && s.rounds < s.nodes[s.m].maxIterations)
  }

  function Full(s: Setup): seq<Node>
    requires SetupOk(s)
  {
    Instances(s.nodes, s.loop, s.rounds)
  }

  function Cut(s: Setup): seq<Node>
    requires SetupOk(s)
  {
    if s.loop == s.m then Full(s)[..s.m] + [Full(s)[s.m].(maxIterations := s.rounds)] else Full(s)[..s.m]
  }

  /** Where the driver stops: at node `m`, after all rounds if that is the chosen loop. */
  predicate Arrived(s: Setup, run: Run)
    requires s.m < |s.nodes|
  {
    run.currentStep == s.m && (s.loop == s.m ==> SlotOf(run.state, s.nodes[s.m].name).iteration == s.rounds)
  }

  /** How far the node under the cursor still is from passing. */
  function Stage(s: Setup, run: Run): nat {
    if run.currentStep >= |s.nodes| then 0
    else
      var node := s.nodes[run.currentStep];
      match node
      case Sleep(name, _) => if name in run.state.sleepMarks then 0 else 1
      case WaitForSignal(_, _) => if run.state.awaitingSignals == [] then 1 else 0
      case Loop(name, _, _, _, _, _) =>
        var rounds := RoundsOf(run.currentStep, s.loop, s.rounds);
        if SlotOf(run.state, name).iteration < rounds then rounds - SlotOf(run.state, name).iteration else 0
      case _ => 0
  }

  ghost predicate Onward(s: Setup, run: Run, after: Run) {
    && after.status in {Running, Waiting}
    && (after.currentStep == run.currentStep + 1
        || (after.currentStep == run.currentStep && Stage(s, after) < Stage(s, run)))
  }

  // ----- One advance ----------------------------------------------------------------------------------------

  /** The clock at which a sleeping node is due. */
  function DueAt(s: Setup, run: Run): World
    requires run.currentStep < |s.nodes|
  {
    var name := s.nodes[run.currentStep].name;
    World(if name in run.state.sleepMarks then run.state.sleepMarks[name] else 0, 0)
  }

  /** The node under the cursor passes, or comes closer to it. */
  predicate Passes(s: Setup, run: Run, nr: NodeRun)
    requires run.currentStep < |s.nodes|
  {
    match nr.outcome
    case NodeDone(_, _) => true
    case Parked(_) => Stage(s, run.(state := nr.state)) < Stage(s, run)
    case _ => false
  }

  lemma HandlerNodePasses(s: Setup, db: Db, run: Run, ctx: Ctx, attempt: nat, w: World)
    requires SetupOk(s) && run.currentStep < |s.nodes|
    requires var node := s.nodes[run.currentStep];
      node.Step? || node.Parallel? || node.Route?
    ensures Passes(s, run, RunNode(db, Full(s)[run.currentStep], ctx, run.state, attempt, w))
  {
    var i := run.currentStep;
    HandlerPasses(s.nodes[i], RoundsOf(i, s.loop, s.rounds), ctx, w);
  }

  lemma WaitingNodePasses(s: Setup, db: Db, run: Run, ctx: Ctx, attempt: nat)
    requires SetupOk(s) && run.currentStep < |s.nodes|
    requires var node := s.nodes[run.currentStep];
      node.Sleep? || (node.WaitForSignal? && run.state.awaitingSignals == [])
    ensures Passes(s, run, RunNode(db, Full(s)[run.currentStep], ctx, run.state, attempt, DueAt(s, run)))
  {
    var node := Full(s)[run.currentStep];
    if node.Sleep? {
      assert node.delay(ctx, DueAt(s, run)) == 0.0;
      assert SleepSeconds(node, ctx, DueAt(s, run)) == 0;
    }
  }

  lemma LoopNodePasses(s: Setup, journal: seq<JournalRow>, run: Run, node: Node, ctx: Ctx, attempt: nat, w: World)
    requires SetupOk(s) && run.currentStep < |s.nodes| && s.nodes[run.currentStep].Loop?
    requires node.Loop? && node.name == s.nodes[run.currentStep].name
    requires node.condition == Full(s)[run.currentStep].condition && node.body == Full(s)[run.currentStep].body
    requires SlotOf(run.state, node.name).iteration < node.maxIterations
    requires ReplaySlot(journal, ctx.runId, node, run.state) == SlotOf(run.state, node.name)
    ensures var nr := RunLoop(journal, node, ctx, run.state, attempt, w);
      && Passes(s, run, nr)
      && (SlotOf(run.state, node.name).iteration < RoundsOf(run.currentStep, s.loop, s.rounds) ==> nr.outcome.Parked?)
  {
    var slot := SlotOf(run.state, node.name);
    assert node.condition(ctx, slot.iteration, w) == Ok(slot.iteration < RoundsOf(run.currentStep, s.loop, s.rounds));
    assert node.body(ctx, slot.iteration, w) == Ok(Bool(true));
  }

  /** The cut run stands below node `m`, or at the chosen loop with rounds to go. */
  predicate OnTheWay(s: Setup, run: Run) {
    && s.m < |s.nodes| && run.currentStep <= s.m && !Arrived(s, run)
    && run.status in {Pending, Running, Waiting}
  }

  lemma CutNode(s: Setup, run: Run)
    requires SetupOk(s) && OnTheWay(s, run)
    ensures run.currentStep < |Cut(s)| && Cut(s)[run.currentStep].name == s.nodes[run.currentStep].name
    ensures run.currentStep < s.m ==> Cut(s)[run.currentStep] == Full(s)[run.currentStep]
    ensures run.currentStep == s.m ==>
      s.loop == s.m && Cut(s)[s.m] == Full(s)[s.m].(maxIterations := s.rounds)
  {
  }

  /** A loop on the way has iterations left. */
  lemma LoopNotSpent(s: Setup, db: Db, run: Run)
    requires SetupOk(s) && OnTheWay(s, run) && s.nodes[run.currentStep].Loop?
    requires ChildFree(Cut(s)) && RunOk(Cut(s), run, CompletedRows(db.journal, 0)) && OnCourse(Cut(s), run, 0, Payload)
    ensures Cut(s)[run.currentStep].Loop?
    ensures var node := Cut(s)[run.currentStep];
      var iteration := SlotOf(run.state, node.name).iteration;
      && iteration < node.maxIterations
      && (run.currentStep == s.m ==> iteration < s.rounds)
  {
    CutNode(s, run);
    var i := run.currentStep;
    if i < s.m {
      OwnPasses(s.nodes[i], RoundsOf(i, s.loop, s.rounds), run.input, run.state.results, 0);
    }
  }

  lemma NodePasses(s: Setup, db: Db, run: Run, ctx: Ctx, attempt: nat)
    requires SetupOk(s) && OnTheWay(s, run) && WellNamed(Cut(s)) && ChildFree(Cut(s)) && ctx.runId == 0
    requires RunOk(Cut(s), run, CompletedRows(db.journal, 0)) && OnCourse(Cut(s), run, 0, Payload)
    requires !(run.status == Waiting && AtSignal(Cut(s), run))
    requires run.currentStep < |Cut(s)|
    ensures var nr := RunNode(db, Cut(s)[run.currentStep], ctx, run.state, attempt, DueAt(s, run));
      Passes(s, run, nr) && (run.currentStep == s.m ==> nr.outcome.Parked?)
  {
    CutNode(s, run);
    var i, w := run.currentStep, DueAt(s, run);
    var node := s.nodes[i];
    if node.Loop? {
      LoopNotSpent(s, db, run);
      SlotNotReplayed(Cut(s), db, run, 0);
      LoopNodePasses(s, db.journal, run, Cut(s)[i], ctx, attempt, w);
    } else if node.Sleep? || node.WaitForSignal? {
      WaitingNodePasses(s, db, run, ctx, attempt);
    } else {
      HandlerNodePasses(s, db, run, ctx, attempt, w);
    }
  }

  lemma PassedMove(s: Setup, run: Run, node: Node, nr: NodeRun)
    requires run.currentStep < |s.nodes| && Passes(s, run, nr)
    ensures var move := ApplyOutcome(run, 0, node, nr, []);
      && Onward(s, run, move.run)
      && (nr.outcome.Parked? ==> move.run.currentStep == run.currentStep)
      && (forall i :: |nr.rows| <= i < |move.rows| ==> move.rows[i].status == RowCompleted)
      && move.rows[..|nr.rows|] == nr.rows
  {
  }

  lemma RowsCompleted(db: Db, node: Node, ctx: Ctx, st: State, attempt: nat, w: World)
    ensures var nr := RunNode(db, node, ctx, st, attempt, w);
      && (forall i :: 0 <= i < |nr.rows| ==> nr.rows[i].status == RowCompleted)
      && (!node.ChildWorkflow? ==> nr.spawn == None)
  {
  }

  predicate AllCompleted(rows: seq<JournalRow>) {
    forall i :: 0 <= i < |rows| ==> rows[i].status == RowCompleted
  }

  lemma AdvanceForward(s: Setup, db: Db)
    requires SetupOk(s) && WellNamed(Cut(s)) && ChildFree(Cut(s)) && 0 in db.runs && OnTheWay(s, db.runs[0])
    requires RunOk(Cut(s), db.runs[0], CompletedRows(db.journal, 0)) && OnCourse(Cut(s), db.runs[0], 0, Payload)
    requires !(db.runs[0].status == Waiting && AtSignal(Cut(s), db.runs[0]))
    ensures var run := db.runs[0];
      var move := AdvanceMove(Workflow("w", Cut(s)), db, 0, DueAt(s, run));
      && Onward(s, run, move.run) && move.run.currentStep <= s.m
      && move.spawn == None && move.effects == [] && AllCompleted(move.rows)
  {
    var run, w := db.runs[0], DueAt(s, db.runs[0]);
    CutNode(s, run);
    var node := Cut(s)[run.currentStep];
    NodeNotReplayed(Workflow("w", Cut(s)), db, 0);
    var attempt := Attempt(run.state, node.name);
    var ctx := Ctx(run.input, run.state.results, 0, attempt);
    NodePasses(s, db, run, ctx, attempt);
    RowsCompleted(db, node, ctx, run.state, attempt, w);
    PassedMove(s, run, node, RunNode(db, node, ctx, run.state, attempt, w));
  }

  lemma SignalForward(s: Setup, db: Db)
    requires SetupOk(s) && WellNamed(Cut(s)) && 0 in db.runs && OnTheWay(s, db.runs[0])
    requires RunOk(Cut(s), db.runs[0], CompletedRows(db.journal, 0))
    requires db.runs[0].status == Waiting && AtSignal(Cut(s), db.runs[0])
    ensures |db.runs[0].state.awaitingSignals| == 1
    ensures var (name, signal) := db.runs[0].state.awaitingSignals[0];
      SignalTarget(db, 0, signal) == Some(name)
    ensures db.runs[0].currentStep < s.m
  {
    CutNode(s, db.runs[0]);
  }

  // ----- One event -----------------------------------------------------------------------------------------

  ghost predicate Driven(s: Setup, events: seq<Event>) {
    && SetupOk(s) && WellNamed(Cut(s)) && PureSteps(Cut(s)) && ExactlyOnce(events)
    && DrivenState(s, Exec(Alone(Full(s)), events), Exec(Alone(Cut(s)), events))
  }

  /** Both workflows' tables agree, with one unfinished run that nothing has gone wrong in. */
  ghost predicate DrivenState(s: Setup, a: Db, b: Db) {
    && Same(a, b) && b.runs.Keys == {0} && AllCompleted(b.journal)
    && SignalsAgree(a.log, 0, Payload)
    && b.runs[0].status in {Pending, Running, Waiting} && b.runs[0].currentStep <= s.m
  }

  function RunIn(s: Setup, events: seq<Event>): Run
    requires SetupOk(s) && 0 in Exec(Alone(Cut(s)), events).runs
  {
    Exec(Alone(Cut(s)), events).runs[0]
  }

  /** What is known of the cut workflow's tables while the run is driven. */
  lemma DrivenFacts(s: Setup, events: seq<Event>)
    requires Driven(s, events)
    ensures var db := Exec(Alone(Cut(s)), events);
      && RegistryOk(Alone(Cut(s))) && Known(Alone(Cut(s)), db)
      && db.runs[0].workflow == "w" && RunOk(Cut(s), db.runs[0], CompletedRows(db.journal, 0))
      && OnCourse(Cut(s), db.runs[0], 0, Payload)
      && HasToken(db.jobs, 0, Needed(Cut(s), db.runs[0]))
  {
    var reg, db := Alone(Cut(s)), Exec(Alone(Cut(s)), events);
    AloneOk(Cut(s));
    ReachableOk(reg, events);
    DbOkKnown(reg, db);
    OneToken(reg, events);
    SameSignals(Exec(Alone(Full(s)), events), db, 0, Payload);
    RunOnCourse(Cut(s), events, 0, Payload);
  }

  /** On the way the full workflow and its cut do the same. */
  lemma WayIsAlike(s: Setup, events: seq<Event>)
    requires Driven(s, events) && OnTheWay(s, RunIn(s, events))
    ensures Alike(Full(s), Cut(s), Exec(Alone(Cut(s)), events))
  {
    var db := Exec(Alone(Cut(s)), events);
    DrivenFacts(s, events);
    forall r, w | r in db.runs && !Terminal(db.runs[r].status)
      ensures AdvanceMove(Workflow("w", Full(s)), db, r, w) == AdvanceMove(Workflow("w", Cut(s)), db, r, w)
    {
      SameAdvance(s, db, w);
    }
  }

  lemma SameAdvance(s: Setup, db: Db, w: World)
    requires SetupOk(s) && WellNamed(Cut(s)) && ChildFree(Cut(s)) && 0 in db.runs && OnTheWay(s, db.runs[0])
    requires RunOk(Cut(s), db.runs[0], CompletedRows(db.journal, 0)) && OnCourse(Cut(s), db.runs[0], 0, Payload)
    ensures AdvanceMove(Workflow("w", Full(s)), db, 0, w) == AdvanceMove(Workflow("w", Cut(s)), db, 0, w)
  {
    CutNode(s, db.runs[0]);
    if db.runs[0].currentStep == s.m {
      RoundsToGo(s, db);
      SameLoopMove(s, db, w);
    } else {
      SameNodeMove(s, db, w);
    }
  }

  lemma SameNodeMove(s: Setup, db: Db, w: World)
    requires SetupOk(s) && 0 in db.runs && db.runs[0].currentStep < |Cut(s)|
    requires Cut(s)[db.runs[0].currentStep] == Full(s)[db.runs[0].currentStep]
    ensures AdvanceMove(Workflow("w", Full(s)), db, 0, w) == AdvanceMove(Workflow("w", Cut(s)), db, 0, w)
  {
  }

  lemma RoundsToGo(s: Setup, db: Db)
    requires SetupOk(s) && WellNamed(Cut(s)) && ChildFree(Cut(s)) && 0 in db.runs && OnTheWay(s, db.runs[0])
    requires RunOk(Cut(s), db.runs[0], CompletedRows(db.journal, 0)) && OnCourse(Cut(s), db.runs[0], 0, Payload)
    requires db.runs[0].currentStep == s.m
    ensures s.loop == s.m < |Cut(s)| && Cut(s)[s.m].Loop?
    ensures SlotOf(db.runs[0].state, s.nodes[s.m].name).iteration < s.rounds
    ensures ReplaySlot(db.journal, 0, Cut(s)[s.m], db.runs[0].state) == SlotOf(db.runs[0].state, s.nodes[s.m].name)
  {
    CutNode(s, db.runs[0]);
    LoopNotSpent(s, db, db.runs[0]);
    SlotNotReplayed(Cut(s), db, db.runs[0], 0);
  }

  /** Cutting a loop's bound down does not show while it has rounds to go. */
  lemma SameLoopMove(s: Setup, db: Db, w: World)
    requires SetupOk(s) && 0 in db.runs && db.runs[0].currentStep == s.m == s.loop
    requires SlotOf(db.runs[0].state, s.nodes[s.m].name).iteration < s.rounds
    requires ReplaySlot(db.journal, 0, Cut(s)[s.m], db.runs[0].state) == SlotOf(db.runs[0].state, s.nodes[s.m].name)
    ensures AdvanceMove(Workflow("w", Full(s)), db, 0, w) == AdvanceMove(Workflow("w", Cut(s)), db, 0, w)
  {
    var run := db.runs[0];
    var attempt := Attempt(run.state, s.nodes[s.m].name);
    SameLoopRun(s, db.journal, run, Ctx(run.input, run.state.results, 0, attempt), attempt, w);
  }

  lemma SameLoopRun(s: Setup, journal: seq<JournalRow>, run: Run, ctx: Ctx, attempt: nat, w: World)
    requires SetupOk(s) && s.loop == s.m && SlotOf(run.state, s.nodes[s.m].name).iteration < s.rounds
    requires ReplaySlot(journal, ctx.runId, Cut(s)[s.m], run.state) == SlotOf(run.state, s.nodes[s.m].name)
    ensures RunLoop(journal, Full(s)[s.m], ctx, run.state, attempt, w)
      == RunLoop(journal, Cut(s)[s.m], ctx, run.state, attempt, w)
  {
    assert ReplaySlot(journal, ctx.runId, Full(s)[s.m], run.state)
      == ReplaySlot(journal, ctx.runId, Cut(s)[s.m], run.state);
  }

  lemma SnocExec(reg: Registry, events: seq<Event>, event: Event)
    ensures Exec(reg, events + [event]) == Next(reg, Exec(reg, events), event)
  {
    assert (events + [event])[..|events|] == events;
  }

  /** The tables after an event that moves the run on quietly. */
  ghost predicate Moved(s: Setup, db: Db, after: Db) {
    && 0 in db.runs && after.runs.Keys == {0} && Onward(s, db.runs[0], after.runs[0])
    && after.runs[0].currentStep <= s.m && AllCompleted(after.journal)
  }

  lemma AdvanceEvent(s: Setup, db: Db, job: nat)
    requires SetupOk(s) && WellNamed(Cut(s)) && ChildFree(Cut(s)) && db.runs.Keys == {0} && OnTheWay(s, db.runs[0])
    requires Known(Alone(Cut(s)), db) && db.runs[0].workflow == "w"
    requires RunOk(Cut(s), db.runs[0], CompletedRows(db.journal, 0)) && OnCourse(Cut(s), db.runs[0], 0, Payload)
    requires !(db.runs[0].status == Waiting && AtSignal(Cut(s), db.runs[0]))
    requires Due(db, job) && AllCompleted(db.journal)
    ensures var after := Next(Alone(Cut(s)), db, Deliver(job, DueAt(s, db.runs[0])));
      Moved(s, db, after) && after.log == db.log
  {
    var taken := db.(jobs := db.jobs - {job});
    AdvanceForward(s, taken);
    DeliveryIsMove(Cut(s), db, job, DueAt(s, db.runs[0]));
    MoveApplied(s, taken, AdvanceMove(Workflow("w", Cut(s)), taken, 0, DueAt(s, db.runs[0])));
  }

  /** An advance of the run is pending. */
  predicate Due(db: Db, job: nat) {
    job in db.jobs && db.jobs[job].AdvanceJob? && db.jobs[job].runId == 0
  }

  lemma DeliveryIsMove(steps: seq<Node>, db: Db, job: nat, w: World)
    requires Due(db, job) && 0 in db.runs && db.runs[0].workflow == "w" && !Terminal(db.runs[0].status)
    requires AdvanceMove(Workflow("w", steps), db.(jobs := db.jobs - {job}), 0, w).spawn == None
    ensures var taken := db.(jobs := db.jobs - {job});
      Next(Alone(steps), db, Deliver(job, w)) == ApplyMove(taken, 0, AdvanceMove(Workflow("w", steps), taken, 0, w))
  {
  }

  lemma MoveApplied(s: Setup, db: Db, move: Move)
    requires db.runs.Keys == {0} && AllCompleted(db.journal) && Onward(s, db.runs[0], move.run)
    requires move.run.currentStep <= s.m && move.spawn == None && move.effects == [] && AllCompleted(move.rows)
    ensures Moved(s, db, ApplyMove(db, 0, move)) && ApplyMove(db, 0, move).log == db.log
  {
    ApplyMoveRuns(db, 0, move);
    NilRight(db.log);
  }

  lemma SignalStep(s: Setup, db: Db)
    requires SetupOk(s) && WellNamed(Cut(s)) && db.runs.Keys == {0} && OnTheWay(s, db.runs[0])
    requires RunOk(Cut(s), db.runs[0], CompletedRows(db.journal, 0)) && AllCompleted(db.journal)
    requires db.runs[0].status == Waiting && AtSignal(Cut(s), db.runs[0])
    ensures |db.runs[0].state.awaitingSignals| == 1
    ensures var (name, signal) := db.runs[0].state.awaitingSignals[0];
      var after := Next(Alone(Cut(s)), db, SignalEvent(0, signal, Bool(false)));
      Moved(s, db, after) && after.log == db.log + [SignalAccepted(0, name, Bool(false))]
  {
    SignalForward(s, db);
    var (name, signal) := db.runs[0].state.awaitingSignals[0];
    ApplyMoveRuns(db, 0, SignalMove(db.runs[0], 0, name, Bool(false)));
  }

  // ----- The way to node `m` -----------------------------------------------------------------------------

  lemma DrivenOn(s: Setup, events: seq<Event>, event: Event)
    requires Driven(s, events) && OnTheWay(s, RunIn(s, events)) && !event.Redeliver?
    requires var b := Exec(Alone(Cut(s)), events);
      var after := Next(Alone(Cut(s)), b, event);
      && Moved(s, b, after) && SignalsAgree(after.log, 0, Payload)
    ensures Driven(s, events + [event]) && Onward(s, RunIn(s, events), RunIn(s, events + [event]))
  {
    StateAfter(s, events, event);
    SnocExec(Alone(Full(s)), events, event);
    SnocExec(Alone(Cut(s)), events, event);
    OnceOn(events, event);
  }

  lemma OnceOn(events: seq<Event>, event: Event)
    requires ExactlyOnce(events) && !event.Redeliver?
    ensures ExactlyOnce(events + [event])
  {
  }

  lemma StateAfter(s: Setup, events: seq<Event>, event: Event)
    requires Driven(s, events) && OnTheWay(s, RunIn(s, events))
    requires var b := Exec(Alone(Cut(s)), events);
      var after := Next(Alone(Cut(s)), b, event);
      && Moved(s, b, after) && SignalsAgree(after.log, 0, Payload)
    ensures var a, b := Exec(Alone(Full(s)), events), Exec(Alone(Cut(s)), events);
      DrivenState(s, Next(Alone(Full(s)), a, event), Next(Alone(Cut(s)), b, event))
  {
    DrivenFacts(s, events);
    WayIsAlike(s, events);
    StateOn(s, Exec(Alone(Full(s)), events), Exec(Alone(Cut(s)), events), event);
  }

  lemma StateOn(s: Setup, a: Db, b: Db, event: Event)
    requires SetupOk(s) && DrivenState(s, a, b) && Known(Alone(Cut(s)), b) && Alike(Full(s), Cut(s), b)
    requires var after := Next(Alone(Cut(s)), b, event);
      Moved(s, b, after) && SignalsAgree(after.log, 0, Payload)
    ensures DrivenState(s, Next(Alone(Full(s)), a, event), Next(Alone(Cut(s)), b, event))
  {
    NextSame(Full(s), Cut(s), a, b, event);
    SameSignals(Next(Alone(Cut(s)), b, event), Next(Alone(Full(s)), a, event), 0, Payload);
  }

  /** One more event, exactly-once, brings the run on. */
  lemma OneEvent(s: Setup, events: seq<Event>) returns (event: Event)
    requires Driven(s, events) && OnTheWay(s, RunIn(s, events))
    ensures Driven(s, events + [event]) && Onward(s, RunIn(s, events), RunIn(s, events + [event]))
  {
    DrivenFacts(s, events);
    SameSignals(Exec(Alone(Full(s)), events), Exec(Alone(Cut(s)), events), 0, Payload);
    event := OneMoveOn(s, Exec(Alone(Cut(s)), events));
    DrivenOn(s, events, event);
  }

  lemma OneMoveOn(s: Setup, b: Db) returns (event: Event)
    requires SetupOk(s) && WellNamed(Cut(s)) && ChildFree(Cut(s)) && b.runs.Keys == {0} && OnTheWay(s, b.runs[0])
    requires Known(Alone(Cut(s)), b) && b.runs[0].workflow == "w" && AllCompleted(b.journal)
    requires RunOk(Cut(s), b.runs[0], CompletedRows(b.journal, 0)) && OnCourse(Cut(s), b.runs[0], 0, Payload)
    requires HasToken(b.jobs, 0, Needed(Cut(s), b.runs[0])) && SignalsAgree(b.log, 0, Payload)
    ensures var after := Next(Alone(Cut(s)), b, event);
      !event.Redeliver? && Moved(s, b, after) && SignalsAgree(after.log, 0, Payload)
  {
    if b.runs[0].status == Waiting && AtSignal(Cut(s), b.runs[0]) {
      SignalStep(s, b);
      event := SignalEvent(0, b.runs[0].state.awaitingSignals[0].1, Bool(false));
    } else {
      event := DueDelivery(s, b);
    }
  }

  lemma DueDelivery(s: Setup, db: Db) returns (event: Event)
    requires SetupOk(s) && WellNamed(Cut(s)) && ChildFree(Cut(s)) && db.runs.Keys == {0} && OnTheWay(s, db.runs[0])
    requires Known(Alone(Cut(s)), db) && db.runs[0].workflow == "w" && AllCompleted(db.journal)
    requires RunOk(Cut(s), db.runs[0], CompletedRows(db.journal, 0)) && OnCourse(Cut(s), db.runs[0], 0, Payload)
    requires HasToken(db.jobs, 0, Needed(Cut(s), db.runs[0]))
    requires !(db.runs[0].status == Waiting && AtSignal(Cut(s), db.runs[0]))
    ensures var after := Next(Alone(Cut(s)), db, event);
      !event.Redeliver? && Moved(s, db, after) && after.log == db.log
  {
    var job :| job in db.jobs && db.jobs[job].AdvanceJob? && JobsOf(db.jobs, 0) == {job};
    assert job in JobsOf(db.jobs, 0);
    AdvanceEvent(s, db, job);
    event := Deliver(job, DueAt(s, db.runs[0]));
  }

  lemma Started(s: Setup)
    requires SetupOk(s) && WellNamed(Cut(s)) && PureSteps(Cut(s))
    ensures Driven(s, [StartEvent("w", Null)])
  {
    var events := [StartEvent("w", Null)];
    assert events[..0] == [];
    assert Exec(Alone(Full(s)), []) == EMPTY_DB == Exec(Alone(Cut(s)), []);
  }

  lemma {:induction false} DriveFrom(s: Setup, start: seq<Event>) returns (events: seq<Event>)
    requires Driven(s, start)
    ensures Driven(s, events) && Arrived(s, RunIn(s, events))
    decreases s.m - RunIn(s, start).currentStep, Stage(s, RunIn(s, start))
  {
    if Arrived(s, RunIn(s, start)) {
      return start;
    }
    var event := OneEvent(s, start);
    events := DriveFrom(s, start + [event]);
  }

  lemma Drive(s: Setup) returns (events: seq<Event>)
    requires SetupOk(s) && WellNamed(Cut(s)) && PureSteps(Cut(s))
    ensures Driven(s, events) && Arrived(s, RunIn(s, events))
  {
    Started(s);
    events := DriveFrom(s, [StartEvent("w", Null)]);
  }
}
