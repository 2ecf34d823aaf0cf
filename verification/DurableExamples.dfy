/** Three small workflows in which the engine does something other than its documentation or its
    builder suggests. Every job is delivered exactly once. */
module DurableExamples {
  import opened Prelude
  import opened DurableTypes
  import opened DurableSpec
  import opened DurableJournal
  import opened DurableSaga
  import opened DurableShapes

  // ----- Running one workflow -------------------------------------------------------------------------

  const NOW := World(0, 0)

  function NoDelay(attempt: nat, w: World): real {
    0.0
  }

  /** One start, and then each job as it comes. */
  function Deliveries(n: nat): seq<Event> {
    if n == 0 then [StartEvent("w", Null)] else Deliveries(n - 1) + [Deliver(n - 1, NOW)]
  }

  function After(steps: seq<Node>, n: nat): Db {
    Exec(Alone(steps), Deliveries(n))
  }

  lemma OneMoreDelivery(steps: seq<Node>, n: nat)
    requires n > 0
    ensures After(steps, n) == Next(Alone(steps), After(steps, n - 1), Deliver(n - 1, NOW))
  {
    var events := Deliveries(n);
    assert events[..|events| - 1] == Deliveries(n - 1);
  }

  lemma {:induction false} DeliveredOnce(n: nat)
    ensures ExactlyOnce(Deliveries(n))
  {
    if n > 0 {
      DeliveredOnce(n - 1);
    }
  }

  /** Between two deliveries there is one run, with one job. */
  ghost predicate At(steps: seq<Node>, n: nat, job: Job, run: Run, rows: seq<JournalRow>) {
    var db := After(steps, n);
    && db.jobs.Keys == {n} && db.jobs[n] == job && db.nextJob == n + 1
    && db.runs.Keys == {0} && db.runs[0] == run && db.journal == rows && db.log == []
  }

  const ADVANCE := AdvanceJob(0, 0.0)

  lemma Started(steps: seq<Node>)
    ensures At(steps, 0, ADVANCE, NewRun("w", Null), [])
  {
    assert Deliveries(0)[..0] == [] && Exec(Alone(steps), []) == EMPTY_DB;
    assert After(steps, 0) == Next(Alone(steps), EMPTY_DB, StartEvent("w", Null));
  }

  /** The run after one attempt at the node under its cursor. */
  function Tried(steps: seq<Node>, run: Run, nr: NodeRun): Move
    requires run.currentStep < |steps|
  {
    ApplyOutcome(run, 0, steps[run.currentStep], nr, [])
  }

  /** A delivery that runs the node under the cursor. */
  lemma NodeDelivered(steps: seq<Node>, n: nat, run: Run, rows: seq<JournalRow>, nr: NodeRun)
    requires At(steps, n, ADVANCE, run, rows) && !Terminal(run.status) && run.workflow == "w"
    requires run.currentStep < |steps| && run.state.stepAttempts == map[]
    requires Lookup(rows, 0, steps[run.currentStep].name) == None
    requires nr == RunNode(After(steps, n), steps[run.currentStep], Ctx(run.input, run.state.results, 0, 1), run.state,
      1, NOW)
    requires nr.spawn == None && !nr.outcome.Retry? && (nr.outcome.Parked? ==> nr.outcome.wakeAfter == Some(0.0))
    ensures At(steps, n + 1, if nr.outcome.Exhausted? then CompensateJob(0) else ADVANCE,
      Tried(steps, run, nr).run, rows + Tried(steps, run, nr).rows)
  {
    OneMoreDelivery(steps, n + 1);
    var db := After(steps, n);
    var taken := db.(jobs := db.jobs - {n});
    var node := steps[run.currentStep];
    SameRun(db, taken.jobs, node, run, nr);
    assert AdvanceMove(Workflow("w", steps), taken, 0, NOW) == Tried(steps, run, nr);
  }

  lemma SameRun(db: Db, jobs: map<nat, Job>, node: Node, run: Run, nr: NodeRun)
    requires nr == RunNode(db, node, Ctx(run.input, run.state.results, 0, 1), run.state, 1, NOW)
    ensures nr == RunNode(db.(jobs := jobs), node, Ctx(run.input, run.state.results, 0, 1), run.state, 1, NOW)
  {
  }

  // ----- A step that is taken for done ---------------------------------------------------------------------

  /** A loop that runs its body once, for `true`. */
  function OneRound(name: string): Node {
    Loop(name, (c: Ctx, i: nat, w: World) => Ok(i < 1), (c: Ctx, i: nat, w: World) => Ok(Bool(true)), 1000, 1, NoDelay)
  }

  /** A step named as the first iteration of the loop, whose handler answers `false`. */
  function Shadowed(name: string): Node {
    Step(IterKey(name, 0), (c: Ctx, w: World) => Ok(Bool(false)), None, 1, NoDelay)
  }

  function Clashing(name: string): seq<Node> {
    [OneRound(name), Shadowed(name)]
  }

  const ROUND := Slot(1, [Bool(true)])

  function RoundRow(name: string): JournalRow {
    JournalRow(0, IterKey(name, 0), RowCompleted, Bool(true), None, 1)
  }

  lemma FirstRound(name: string, ctx: Ctx)
    requires ctx.runId == 0
    ensures RunLoop([], OneRound(name), ctx, EMPTY_STATE, 1, NOW)
      == NodeRun(Parked(Some(0.0)), EMPTY_STATE.(loopState := map[name := ROUND]), [RoundRow(name)], None)
  {
    assert map[name := Slot(0, [])][name := ROUND] == map[name := ROUND];
    assert Slot(0 + 1, [] + [Bool(true)]) == ROUND;
  }

  lemma OneKeyLonger(name: string)
    ensures Lookup([RoundRow(name)], 0, IterKey(name, 1)) == None && Lookup([RoundRow(name)], 0, name) == None
  {
    assert IterKey(name, 0)[|name| + 1] == '0' && IterKey(name, 1)[|name| + 1] == '1';
    assert |IterKey(name, 0)| > |name|;
    assert [RoundRow(name)][1..] == [];
  }

  lemma SecondRound(name: string, ctx: Ctx)
    requires ctx.runId == 0
    ensures var state := EMPTY_STATE.(loopState := map[name := ROUND]);
      RunLoop([RoundRow(name)], OneRound(name), ctx, state, 1, NOW)
        == NodeRun(NodeDone(List([Bool(true)]), 1), state, [], None)
  {
    OneKeyLonger(name);
    assert map[name := ROUND][name := ROUND] == map[name := ROUND];
    assert ReplaySlot([RoundRow(name)], 0, OneRound(name), EMPTY_STATE.(loopState := map[name := ROUND])) == ROUND;
  }

  /** The run once the loop has passed. */
  function LoopPassed(name: string): Run {
    NewRun("w", Null).(
      status := Running, currentStep := 1, state := EMPTY_STATE.(results := map[name := List([Bool(true)])]))
  }

  function LoopRow(name: string): JournalRow {
    JournalRow(0, name, RowCompleted, List([Bool(true)]), None, 1)
  }

  /** The run after the loop's first round. */
  function RoundDone(name: string): Run {
    NewRun("w", Null).(status := Waiting, state := EMPTY_STATE.(loopState := map[name := ROUND]))
  }

  lemma AfterOneRound(steps: seq<Node>, name: string, nr: NodeRun)
    requires steps != [] && steps[0].Loop? && steps[0].name == name
    requires nr == RunLoop([], steps[0], Ctx(Null, map[], 0, 1), EMPTY_STATE, 1, NOW)
    requires nr == NodeRun(Parked(Some(0.0)), EMPTY_STATE.(loopState := map[name := ROUND]), [RoundRow(name)], None)
    ensures At(steps, 1, ADVANCE, RoundDone(name), [RoundRow(name)])
  {
    Started(steps);
    NodeDelivered(steps, 0, NewRun("w", Null), [], nr);
    assert [] + [RoundRow(name)] == [RoundRow(name)];
  }

  lemma TwoRounds(name: string)
    ensures At(Clashing(name), 2, ADVANCE, LoopPassed(name), [RoundRow(name), LoopRow(name)])
  {
    var ctx := Ctx(Null, map[], 0, 1);
    FirstRound(name, ctx);
    AfterOneRound(Clashing(name), name, RunLoop([], OneRound(name), ctx, EMPTY_STATE, 1, NOW));
    SecondRound(name, ctx);
    OneKeyLonger(name);
    NodeDelivered(Clashing(name), 1, RoundDone(name), [RoundRow(name)],
      NodeRun(NodeDone(List([Bool(true)]), 1), RoundDone(name).state, [], None));
    assert map[name := ROUND] - {name} == map[];
    assert [RoundRow(name)] + [LoopRow(name)] == [RoundRow(name), LoopRow(name)];
  }

  lemma StepReplayed(name: string, db: Db)
    requires 0 in db.runs && db.runs[0] == LoopPassed(name) && db.journal == [RoundRow(name), LoopRow(name)]
    ensures AdvanceMove(Workflow("w", Clashing(name)), db, 0, NOW)
      == ReplayNode(LoopPassed(name), Shadowed(name), Bool(true))
  {
  }

  lemma ClashingIsIllNamed(name: string)
    ensures DistinctNames(Clashing(name)) && !WellNamed(Clashing(name))
  {
    assert |IterKey(name, 0)| > |name|;
    assert Clash(Clashing(name), 0, 1, 0) && !Harmless(Clashing(name), 0, 1, 0);
  }

  /** The builder accepts the workflow, but the step's stored result is the loop's journaled
      iteration and not what its handler answers. */
  lemma ClashingNameIsSkipped(name: string)
    ensures ExactlyOnce(Deliveries(3)) && DistinctNames(Clashing(name)) && !WellNamed(Clashing(name))
    ensures var db := After(Clashing(name), 3);
      && 0 in db.runs && db.runs[0].status == Running && db.runs[0].currentStep == 2
      && IterKey(name, 0) in db.runs[0].state.results
      && db.runs[0].state.results[IterKey(name, 0)] == Bool(true)
    ensures forall c, w :: Shadowed(name).handler(c, w) == Ok(Bool(false))
  {
    DeliveredOnce(3);
    ClashingIsIllNamed(name);
    TwoRounds(name);
    OneMoreDelivery(Clashing(name), 3);
    var db := After(Clashing(name), 2);
    StepReplayed(name, db.(jobs := db.jobs - {2}));
  }

  // ----- A failed step is not undone ---------------------------------------------------------------------------

  function Undo(c: Ctx, w: World): Result<(), string> {
    Ok(())
  }

  function Undoable(name: string, answer: Result<Value, string>): Node {
    Step(name, (c: Ctx, w: World) => answer, Some(Undo), 1, NoDelay)
  }

  const PAIR := [Undoable("first", Ok(Null)), Undoable("second", Err("out of stock"))]

  const FIRST_DONE := NewRun("w", Null).(
    status := Running, currentStep := 1, state := EMPTY_STATE.(results := map["first" := Null]))

  const FIRST_ROW := JournalRow(0, "first", RowCompleted, Null, None, 1)
  const SECOND_ROW := JournalRow(0, "second", RowFailed, Null, Some("out of stock"), 1)

  lemma FirstDone()
    ensures At(PAIR, 1, ADVANCE, FIRST_DONE, [FIRST_ROW])
  {
    Started(PAIR);
    NodeDelivered(PAIR, 0, NewRun("w", Null), [], NodeRun(NodeDone(Null, 1), EMPTY_STATE, [], None));
    assert [] + [FIRST_ROW] == [FIRST_ROW];
  }

  lemma SecondNotFound()
    ensures Lookup([FIRST_ROW], 0, "second") == None
  {
    assert [FIRST_ROW][1..] == [] && |"second"| != |"first"|;
  }

  lemma SecondFailed()
    ensures At(PAIR, 2, CompensateJob(0), FIRST_DONE.(status := Compensating, error := Some("out of stock")),
      [FIRST_ROW, SECOND_ROW])
  {
    FirstDone();
    SecondNotFound();
    NodeDelivered(PAIR, 1, FIRST_DONE, [FIRST_ROW],
      NodeRun(Exhausted(1, "out of stock"), FIRST_DONE.state, [], None));
    assert [FIRST_ROW] + [SECOND_ROW] == [FIRST_ROW, SECOND_ROW];
  }

  /** A rollback, once its job is delivered. */
  lemma RolledBack(steps: seq<Node>, n: nat, run: Run, rows: seq<JournalRow>)
    requires At(steps, n, CompensateJob(0), run, rows) && run.status == Compensating && run.workflow == "w"
    ensures var db := After(steps, n + 1);
      && 0 in db.runs && db.runs[0] == run.(status := Failed)
      && db.log == CompensateAll(Workflow("w", steps), Reverse(CompletedNames(rows, 0)),
           Ctx(run.input, run.state.results, 0, 1), NOW)
  {
    OneMoreDelivery(steps, n + 1);
  }

  /** Only one name to undo. */
  lemma OneUndone(steps: seq<Node>, name: string, ctx: Ctx)
    requires FindNode(steps, name).Some? && FindNode(steps, name).value.Step?
    requires FindNode(steps, name).value.compensate == Some(Undo) && ctx.runId == 0
    ensures Calls(CompensateAll(Workflow("w", steps), Reverse([name]), ctx, NOW), 0) == [(name, ctx)]
  {
    OneCompensation(steps, name, ctx);
    AllOfOne(Workflow("w", steps), name, ctx);
    OneCall(name, ctx);
    assert Reverse([name]) == [name];
  }

  lemma OneCompensation(steps: seq<Node>, name: string, ctx: Ctx)
    requires FindNode(steps, name).Some? && FindNode(steps, name).value.Step?
    requires FindNode(steps, name).value.compensate == Some(Undo) && ctx.runId == 0
    ensures CompensateOne(Workflow("w", steps), name, ctx, NOW) == [CompensatorCalled(0, name, ctx)]
  {
    assert Undo(ctx, NOW) == Ok(());
  }

  lemma AllOfOne(wf: Workflow, name: string, ctx: Ctx)
    ensures CompensateAll(wf, [name], ctx, NOW) == CompensateOne(wf, name, ctx, NOW)
  {
    assert [name][..0] == [];
  }

  lemma OneCall(name: string, ctx: Ctx)
    ensures Calls([CompensatorCalled(0, name, ctx)], 0) == [(name, ctx)]
  {
    assert [CompensatorCalled(0, name, ctx)][..0] == [];
  }

  lemma PairIsFine()
    ensures RegistryOk(Alone(PAIR)) && FindNode(PAIR, "first") == Some(PAIR[0])
  {
    assert |"first"| != |"second"|;
    assert PAIR[..1] == [PAIR[0]];
    AloneOk(PAIR);
  }

  /** Both steps declare a compensator and the second exhausts its only attempt: the compensator
      of the first is called, and the second's is not. */
  lemma FailedStepIsNotUndone()
    ensures RegistryOk(Alone(PAIR)) && ExactlyOnce(Deliveries(3)) && Compensable(PAIR[0]) && Compensable(PAIR[1])
    ensures var db := After(PAIR, 3);
      && 0 in db.runs && db.runs[0].status == Failed && db.runs[0].currentStep == 1
      && Calls(db.log, 0) == [("first", Ctx(Null, map["first" := Null], 0, 1))]
  {
    DeliveredOnce(3);
    PairIsFine();
    SecondFailed();
    RolledBack(PAIR, 2, FIRST_DONE.(status := Compensating, error := Some("out of stock")), [FIRST_ROW, SECOND_ROW]);
    assert [FIRST_ROW] + [SECOND_ROW] == [FIRST_ROW, SECOND_ROW];
    OneCompleted(FIRST_ROW, [SECOND_ROW]);
    OneUndone(PAIR, "first", Ctx(Null, map["first" := Null], 0, 1));
  }

  // ----- A step that never ran is undone -----------------------------------------------------------------------

  function Endless(name: string): Node {
    Loop(name, (c: Ctx, i: nat, w: World) => Ok(true), (c: Ctx, i: nat, w: World) => Ok(Bool(true)), 1, 1, NoDelay)
  }

  function Lookalikes(name: string): seq<Node> {
    [Endless(name), Undoable(IterKey(name, 0), Ok(Null))]
  }

  lemma SpentRound(name: string, ctx: Ctx)
    requires ctx.runId == 0
    ensures RunLoop([], Endless(name), ctx, EMPTY_STATE, 1, NOW)
      == NodeRun(Parked(Some(0.0)), EMPTY_STATE.(loopState := map[name := ROUND]), [RoundRow(name)], None)
    ensures var state := EMPTY_STATE.(loopState := map[name := ROUND]);
      RunLoop([RoundRow(name)], Endless(name), ctx, state, 1, NOW)
        == NodeRun(Exhausted(1, LoopBoundError(1)), state, [], None)
  {
    OneKeyLonger(name);
    assert map[name := Slot(0, [])][name := ROUND] == map[name := ROUND];
    assert map[name := ROUND][name := ROUND] == map[name := ROUND];
    assert Slot(0 + 1, [] + [Bool(true)]) == ROUND;
    assert ReplaySlot([RoundRow(name)], 0, Endless(name), EMPTY_STATE.(loopState := map[name := ROUND])) == ROUND;
  }

  lemma BoundReached(name: string) returns (run: Run, rows: seq<JournalRow>)
    ensures At(Lookalikes(name), 2, CompensateJob(0), run, rows)
    ensures run.status == Compensating && run.workflow == "w" && run.currentStep == 0 && run.input == Null
    ensures run.state.results == map[] && CompletedNames(rows, 0) == [IterKey(name, 0)]
  {
    var ctx := Ctx(Null, map[], 0, 1);
    SpentRound(name, ctx);
    AfterOneRound(Lookalikes(name), name, RunLoop([], Endless(name), ctx, EMPTY_STATE, 1, NOW));
    OneKeyLonger(name);
    var nr := NodeRun(Exhausted(1, LoopBoundError(1)), RoundDone(name).state, [], None);
    NodeDelivered(Lookalikes(name), 1, RoundDone(name), [RoundRow(name)], nr);
    run := Tried(Lookalikes(name), RoundDone(name), nr).run;
    rows := [RoundRow(name)] + Tried(Lookalikes(name), RoundDone(name), nr).rows;
    OneCompleted(RoundRow(name), Tried(Lookalikes(name), RoundDone(name), nr).rows);
  }

  lemma OneCompleted(row: JournalRow, more: seq<JournalRow>)
    requires row.runId == 0 && row.status == RowCompleted && |more| == 1 && more[0].status == RowFailed
    ensures CompletedNames([row] + more, 0) == [row.stepName]
  {
    assert ([row] + more)[..1] == [row] && [row][..0] == [];
    assert CompletedNames([row], 0) == [row.stepName];
  }

  /** The names are fit for the engine's results, and yet the rollback of the loop that ran into
      its bound calls the compensator of the step behind it, which never ran. */
  lemma LookalikeIsUndone(name: string)
    ensures RegistryOk(Alone(Lookalikes(name))) && ExactlyOnce(Deliveries(3)) && !NoLookalikes(Lookalikes(name))
    ensures var db := After(Lookalikes(name), 3);
      && 0 in db.runs && db.runs[0].status == Failed && db.runs[0].currentStep == 0
      && Calls(db.log, 0) == [(IterKey(name, 0), Ctx(Null, map[], 0, 1))]
  {
    var steps := Lookalikes(name);
    DeliveredOnce(3);
    LookalikesNamed(name);
    var run, rows := BoundReached(name);
    RolledBack(steps, 2, run, rows);
    LookalikeFound(name);
    OneUndone(steps, IterKey(name, 0), Ctx(Null, map[], 0, 1));
  }

  lemma LookalikeFound(name: string)
    ensures FindNode(Lookalikes(name), IterKey(name, 0)) == Some(Undoable(IterKey(name, 0), Ok(Null)))
  {
  }

  lemma LookalikesNamed(name: string)
    ensures RegistryOk(Alone(Lookalikes(name))) && !NoLookalikes(Lookalikes(name))
  {
    var steps := Lookalikes(name);
    assert |IterKey(name, 0)| > |name|;
    assert steps[1].name == IterKey(steps[0].name, steps[0].maxIterations - 1);
    forall i, j, k: nat | 0 <= i < 2 && 0 <= j < 2 && Clash(steps, i, j, k)
      ensures Harmless(steps, i, j, k)
    {
      assert |IterKey(name, k)| > |name|;
    }
    AloneOk(steps);
  }
}
