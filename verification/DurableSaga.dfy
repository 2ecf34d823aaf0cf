/** Saga order: which compensators run, in which order, and how often. */
module DurableSaga {
  import opened Prelude
  import opened DurableTypes
  import opened DurableSpec
  import opened DurableJournal
  import opened DurableRunInvariant
  import opened DurableReachable
  import opened DurableHistory

  // ----- Reading the record of outside effects ---------------------------------------------------

  /** The compensator calls made for a run, in order, with the context each one got. */
  function Calls(log: seq<Effect>, r: RunId): seq<(string, Ctx)> {
    if log == [] then []
    else
      var last := log[|log| - 1];
      Calls(log[..|log| - 1], r)
      + (if last.CompensatorCalled? && last.runId == r then [(last.step, last.ctx)] else [])
  }

  predicate Compensable(node: Node) {
    node.Step? && node.compensate.Some?
  }

  /** Names of the `step` nodes among the first `n` that declare a compensator. */
  function CompensableBefore(steps: seq<Node>, n: nat): seq<string>
    requires n <= |steps|
  {
    if n == 0 then []
    else CompensableBefore(steps, n - 1) + (if Compensable(steps[n - 1]) then [steps[n - 1].name] else [])
  }

  function WithCtx(names: seq<string>, ctx: Ctx): seq<(string, Ctx)> {
    seq(|names|, i requires 0 <= i < |names| => (names[i], ctx))
  }

  /** What the rollback takes for completed, in declaration order. */
  function ToUndo(steps: seq<Node>, run: Run): seq<string>
    requires run.currentStep <= |steps|
  {
    CompensableBefore(steps, run.currentStep) + Mistaken(steps, run)
  }

  /** The calls a run must have caused: none until it has failed, then its rollback. */
  function ExpectedCalls(steps: seq<Node>, run: Run, r: RunId): seq<(string, Ctx)>
    requires run.currentStep <= |steps|
  {
    if run.status == Failed then
      WithCtx(Reverse(ToUndo(steps, run)), Ctx(run.input, run.state.results, r, 1))
    else []
  }

  lemma {:induction false} CallsAppend(a: seq<Effect>, b: seq<Effect>, r: RunId)
    ensures Calls(a + b, r) == Calls(a, r) + Calls(b, r)
  {
    if b == [] {
      NilRight(a);
    } else {
      var last := b[|b| - 1];
      assert (a + b)[..|a + b| - 1] == a + b[..|b| - 1];
      CallsAppend(a, b[..|b| - 1], r);
      Assoc(Calls(a, r), Calls(b[..|b| - 1], r),
        if last.CompensatorCalled? && last.runId == r then [(last.step, last.ctx)] else []);
    }
  }

  lemma {:induction false} NoCalls(log: seq<Effect>, r: RunId)
    requires forall i :: 0 <= i < |log| ==> !log[i].CompensatorCalled? || log[i].runId != r
    ensures Calls(log, r) == []
  {
    if log != [] {
      NoCalls(log[..|log| - 1], r);
    }
  }

  // ----- From journal names to compensators -------------------------------------------------------

  /** The names that resolve to a node with a compensator, in order. */
  function Keep(steps: seq<Node>, names: seq<string>): seq<string> {
    if names == [] then []
    else
      var found := FindNode(steps, names[|names| - 1]);
      Keep(steps, names[..|names| - 1])
      + (if found.Some? && Compensable(found.value) then [names[|names| - 1]] else [])
  }

  lemma {:induction false} KeepAppend(steps: seq<Node>, a: seq<string>, b: seq<string>)
    ensures Keep(steps, a + b) == Keep(steps, a) + Keep(steps, b)
  {
    if b == [] {
      NilRight(a);
    } else {
      assert (a + b)[..|a + b| - 1] == a + b[..|b| - 1];
      KeepAppend(steps, a, b[..|b| - 1]);
      var found := FindNode(steps, b[|b| - 1]);
      Assoc(Keep(steps, a), Keep(steps, b[..|b| - 1]),
        if found.Some? && Compensable(found.value) then [b[|b| - 1]] else []);
    }
  }

  lemma KeepOne(steps: seq<Node>, name: string)
    ensures Keep(steps, [name])
      == if FindNode(steps, name).Some? && Compensable(FindNode(steps, name).value) then [name] else []
  {
    assert [name][..0] == [];
  }

  lemma {:induction false} KeepReverse(steps: seq<Node>, names: seq<string>)
    ensures Keep(steps, Reverse(names)) == Reverse(Keep(steps, names))
  {
    if names != [] {
      var init, last := names[..|names| - 1], names[|names| - 1];
      assert names == init + [last];
      ReverseAppend(init, [last]);
      KeepAppend(steps, [last], Reverse(init));
      KeepReverse(steps, init);
      KeepOne(steps, last);
      ReverseAppend(Keep(steps, init), Keep(steps, [last]));
      assert Reverse([last]) == [last];
    }
  }

  lemma {:induction false} FindNodeNone(steps: seq<Node>, name: string)
    requires forall i :: 0 <= i < |steps| ==> steps[i].name != name
    ensures FindNode(steps, name) == None
  {
    if steps != [] {
      FindNodeNone(steps[..|steps| - 1], name);
    }
  }

  lemma {:induction false} FindNodeAt(steps: seq<Node>, i: nat)
    requires i < |steps| && forall a, b :: 0 <= a < b < |steps| ==> steps[a].name != steps[b].name
    ensures FindNode(steps, steps[i].name) == Some(steps[i])
  {
    if i < |steps| - 1 {
      FindNodeAt(steps[..|steps| - 1], i);
    }
  }

  function Names(rows: seq<Entry>): seq<string> {
    seq(|rows|, i requires 0 <= i < |rows| => rows[i].0)
  }

  lemma {:induction false} CompletedNamesAreRowNames(journal: seq<JournalRow>, r: RunId)
    ensures CompletedNames(journal, r) == Names(CompletedRows(journal, r))
  {
    if journal != [] {
      CompletedNamesAreRowNames(journal[..|journal| - 1], r);
    }
  }

  lemma NamesAppend(a: seq<Entry>, b: seq<Entry>)
    ensures Names(a + b) == Names(a) + Names(b)
  {
  }

  lemma {:induction false} KeepNone(steps: seq<Node>, names: seq<string>)
    requires forall i :: 0 <= i < |names| ==> FindNode(steps, names[i]) == None
    ensures Keep(steps, names) == []
  {
    if names != [] {
      KeepNone(steps, names[..|names| - 1]);
    }
  }

  lemma IterationUnknown(steps: seq<Node>, i: nat, k: nat)
    requires WellNamed(steps) && i < |steps| && steps[i].Loop? && k < PastBound(steps[i])
    ensures FindNode(steps, IterKey(steps[i].name, k)) == None
  {
    forall j | 0 <= j < |steps|
      ensures steps[j].name != IterKey(steps[i].name, k)
    {
      NotAnIteration(steps, i, j, k);
    }
    FindNodeNone(steps, IterKey(steps[i].name, k));
  }

  lemma KeepIterRows(steps: seq<Node>, i: nat, values: seq<Value>)
    requires WellNamed(steps) && i < |steps| && steps[i].Loop?
    ensures Keep(steps, Names(IterRows(steps[i].name, Kept(values, PastBound(steps[i]))))) == []
  {
    var names := Names(IterRows(steps[i].name, Kept(values, PastBound(steps[i]))));
    forall k | 0 <= k < |names|
      ensures FindNode(steps, names[k]) == None
    {
      IterationUnknown(steps, i, k);
    }
    KeepNone(steps, names);
  }

  lemma KeepNodeRows(steps: seq<Node>, i: nat, value: Value)
    requires WellNamed(steps) && i < |steps|
    ensures Keep(steps, Names(NodeRows(steps[i], value)))
      == if Compensable(steps[i]) then [steps[i].name] else []
  {
    var iters := if steps[i].Loop? && value.List?
      then IterRows(steps[i].name, Kept(value.items, PastBound(steps[i]))) else [];
    if steps[i].Loop? && value.List? {
      KeepIterRows(steps, i, value.items);
    }
    NamesAppend(iters, [(steps[i].name, value)]);
    assert Names([(steps[i].name, value)]) == [steps[i].name];
    KeepAppend(steps, Names(iters), [steps[i].name]);
    KeepOne(steps, steps[i].name);
    FindNodeAt(steps, i);
  }

  lemma KeepNamesAppend(steps: seq<Node>, a: seq<Entry>, b: seq<Entry>)
    ensures Keep(steps, Names(a + b)) == Keep(steps, Names(a)) + Keep(steps, Names(b))
  {
    NamesAppend(a, b);
    KeepAppend(steps, Names(a), Names(b));
  }

  lemma KeepNothing(steps: seq<Node>)
    ensures Keep(steps, Names([])) == []
  {
    assert Names([]) == [];
  }

  lemma {:induction false} KeepPastRows(steps: seq<Node>, n: nat, results: map<string, Value>)
    requires WellNamed(steps) && n <= |steps| && NamesBefore(steps, n) <= results.Keys
    ensures Keep(steps, Names(PastRows(steps, n, results))) == CompensableBefore(steps, n)
  {
    if n == 0 {
      KeepNothing(steps);
    } else {
      PastRowsUnfold(steps, n, results);
      KeepPastRows(steps, n - 1, results);
      KeepOneMore(steps, n - 1, PastRows(steps, n - 1, results), results[steps[n - 1].name]);
    }
  }

  lemma KeepOneMore(steps: seq<Node>, i: nat, past: seq<Entry>, value: Value)
    requires WellNamed(steps) && i < |steps|
    ensures Keep(steps, Names(past + NodeRows(steps[i], value)))
      == Keep(steps, Names(past)) + (if Compensable(steps[i]) then [steps[i].name] else [])
  {
    KeepNamesAppend(steps, past, NodeRows(steps[i], value));
    KeepNodeRows(steps, i, value);
  }

  /** The step, if any, that bears the key of the last iteration of the loop under the cursor,
      once the loop has used up its bound: the journal looks as if that step were completed. */
  function Mistaken(steps: seq<Node>, run: Run): seq<string> {
    if run.currentStep < |steps| && steps[run.currentStep].Loop?
    then FirstResolved(steps, LastRow(steps[run.currentStep], run.state)) else []
  }

  function FirstResolved(steps: seq<Node>, rows: seq<Entry>): seq<string> {
    if rows == [] then [] else Resolved(steps, rows[0].0)
  }

  function Resolved(steps: seq<Node>, name: string): seq<string> {
    if FindNode(steps, name).Some? && Compensable(FindNode(steps, name).value) then [name] else []
  }

  lemma KeepAtMostOne(steps: seq<Node>, rows: seq<Entry>)
    requires |rows| <= 1
    ensures Keep(steps, Names(rows)) == FirstResolved(steps, rows)
  {
    if rows == [] {
      KeepNothing(steps);
    } else {
      assert Names(rows) == [rows[0].0];
      KeepOne(steps, rows[0].0);
    }
  }

  lemma KeepRunRows(steps: seq<Node>, run: Run, rows: seq<Entry>)
    requires WellNamed(steps) && RunOk(steps, run, rows)
    ensures Keep(steps, Names(rows)) == ToUndo(steps, run)
  {
    KeepPastRows(steps, run.currentStep, run.state.results);
    KeepNamesAppend(steps, PastRows(steps, run.currentStep, run.state.results), CurrentRows(steps, run));
    KeepCurrentRows(steps, run);
  }

  lemma KeepCurrentRows(steps: seq<Node>, run: Run)
    requires WellNamed(steps)
    ensures Keep(steps, Names(CurrentRows(steps, run))) == Mistaken(steps, run)
  {
    if run.currentStep < |steps| && steps[run.currentStep].Loop? {
      var node := steps[run.currentStep];
      var results := SlotOf(run.state, node.name).results;
      LoopRowsSplit(node, run.state);
      KeepIterRows(steps, run.currentStep, results);
      KeepNamesAppend(steps, IterRows(node.name, Kept(results, PastBound(node))), LastRow(node, run.state));
      KeepAtMostOne(steps, LastRow(node, run.state));
    } else {
      KeepNothing(steps);
    }
  }

  lemma CompensateOneCalls(wf: Workflow, name: string, ctx: Ctx, w: World)
    ensures Calls(CompensateOne(wf, name, ctx, w), ctx.runId) == WithCtx(Keep(wf.steps, [name]), ctx)
  {
    KeepOne(wf.steps, name);
    var call := CompensatorCalled(ctx.runId, name, ctx);
    var effects := CompensateOne(wf, name, ctx, w);
    assert [call][..0] == [];
    if effects != [] {
      CallsAppend([call], effects[1..], ctx.runId);
      NoCalls(effects[1..], ctx.runId);
      assert effects == [call] + effects[1..];
    }
  }

  /** One more compensator's calls after those of the others. */
  lemma CallsJoin(a: seq<Effect>, b: seq<Effect>, x: seq<string>, y: seq<string>, ctx: Ctx)
    requires Calls(a, ctx.runId) == WithCtx(x, ctx) && Calls(b, ctx.runId) == WithCtx(y, ctx)
    ensures Calls(a + b, ctx.runId) == WithCtx(x + y, ctx)
  {
    CallsAppend(a, b, ctx.runId);
    WithCtxAppend(x, y, ctx);
  }

  lemma KeepUnfolds(steps: seq<Node>, names: seq<string>)
    requires names != []
    ensures Keep(steps, names) == Keep(steps, names[..|names| - 1]) + Keep(steps, [names[|names| - 1]])
  {
    KeepAppend(steps, names[..|names| - 1], [names[|names| - 1]]);
    assert names == names[..|names| - 1] + [names[|names| - 1]];
  }

  lemma NothingKept(steps: seq<Node>, ctx: Ctx, runId: RunId)
    ensures Calls([], runId) == [] && Keep(steps, []) == [] && WithCtx([], ctx) == []
  {
  }

  ghost predicate CallsKept(wf: Workflow, names: seq<string>, ctx: Ctx, w: World) {
    Calls(CompensateAll(wf, names, ctx, w), ctx.runId) == WithCtx(Keep(wf.steps, names), ctx)
  }

  lemma OneMoreCalled(wf: Workflow, names: seq<string>, ctx: Ctx, w: World)
    requires names != [] && CallsKept(wf, names[..|names| - 1], ctx, w)
    ensures CallsKept(wf, names, ctx, w)
  {
    var init, last := names[..|names| - 1], names[|names| - 1];
    CompensateOneCalls(wf, last, ctx, w);
    KeepUnfolds(wf.steps, names);
    CallsJoin(CompensateAll(wf, init, ctx, w), CompensateOne(wf, last, ctx, w),
      Keep(wf.steps, init), Keep(wf.steps, [last]), ctx);
  }

  lemma {:induction false} CompensateAllCalls(wf: Workflow, names: seq<string>, ctx: Ctx, w: World)
    ensures CallsKept(wf, names, ctx, w)
  {
    if names == [] {
      NothingKept(wf.steps, ctx, ctx.runId);
    } else {
      CompensateAllCalls(wf, names[..|names| - 1], ctx, w);
      OneMoreCalled(wf, names, ctx, w);
    }
  }

  lemma WithCtxAppend(a: seq<string>, b: seq<string>, ctx: Ctx)
    ensures WithCtx(a + b, ctx) == WithCtx(a, ctx) + WithCtx(b, ctx)
  {
  }

  /** One rollback walk calls exactly the compensators of the completed steps, in reverse. */
  lemma WalkCalls(wf: Workflow, db: Db, r: RunId, w: World)
    requires WellNamed(wf.steps) && r in db.runs
    requires RunOk(wf.steps, db.runs[r], CompletedRows(db.journal, r))
    ensures var run := CompensateMove(wf, db, r, w).run;
      run.currentStep <= |wf.steps| && run.status == Failed
      && Calls(CompensateMove(wf, db, r, w).effects, r) == ExpectedCalls(wf.steps, run, r)
  {
    var run := db.runs[r];
    WalkNames(wf.steps, db, r);
    CompensateAllCalls(wf, Reverse(CompletedNames(db.journal, r)), Ctx(run.input, run.state.results, r, 1), w);
  }

  lemma WalkNames(steps: seq<Node>, db: Db, r: RunId)
    requires WellNamed(steps) && r in db.runs && RunOk(steps, db.runs[r], CompletedRows(db.journal, r))
    ensures Keep(steps, Reverse(CompletedNames(db.journal, r))) == Reverse(ToUndo(steps, db.runs[r]))
  {
    CompletedNamesAreRowNames(db.journal, r);
    KeepRunRows(steps, db.runs[r], CompletedRows(db.journal, r));
    KeepReverse(steps, CompletedNames(db.journal, r));
  }

  // ----- The invariant over runs -------------------------------------------------------------------

  ghost predicate LogOwned(db: Db) {
    forall i :: 0 <= i < |db.log| ==> db.log[i].runId in db.runs
  }

  ghost predicate CallsOk(reg: Registry, db: Db) {
    forall r :: (r in db.runs && db.runs[r].workflow in reg
        && db.runs[r].currentStep <= |reg[db.runs[r].workflow].steps|) ==>
      Calls(db.log, r) == ExpectedCalls(reg[db.runs[r].workflow].steps, db.runs[r], r)
  }

  ghost predicate SagaOk(reg: Registry, db: Db) {
    LogOwned(db) && CallsOk(reg, db)
  }

  lemma ApplyMoveSaga(reg: Registry, db: Db, runId: RunId, move: Move)
    requires SagaOk(reg, db) && KeysOk(db) && runId in db.runs
    requires forall i :: 0 <= i < |move.effects| ==> move.effects[i].runId == runId
    requires move.run.workflow in reg && move.run.currentStep <= |reg[move.run.workflow].steps|
    requires Calls(db.log, runId) + Calls(move.effects, runId)
      == ExpectedCalls(reg[move.run.workflow].steps, move.run, runId)
    ensures SagaOk(reg, ApplyMove(db, runId, move))
  {
    ApplyMoveRuns(db, runId, move);
    var after := ApplyMove(db, runId, move);
    forall r | r in after.runs && after.runs[r].workflow in reg
        && after.runs[r].currentStep <= |reg[after.runs[r].workflow].steps|
      ensures Calls(after.log, r) == ExpectedCalls(reg[after.runs[r].workflow].steps, after.runs[r], r)
    {
      CallsAppend(db.log, move.effects, r);
      if r != runId {
        NoCalls(move.effects, r);
        NilRight(Calls(db.log, r));
        if r !in db.runs {
          NoCalls(db.log, r);
        }
      }
    }
  }

  /** A move that calls no compensator and does not end the run as failed. */
  lemma QuietMoveSaga(reg: Registry, db: Db, runId: RunId, move: Move)
    requires DbOk(reg, db) && SagaOk(reg, db) && runId in db.runs && db.runs[runId].status != Failed
    requires forall i :: 0 <= i < |move.effects| ==> move.effects[i].runId == runId
    requires Calls(move.effects, runId) == []
    requires move.run.workflow in reg && move.run.currentStep <= |reg[move.run.workflow].steps|
    requires move.run.status != Failed
    ensures SagaOk(reg, ApplyMove(db, runId, move))
  {
    NilRight(Calls(db.log, runId));
    ApplyMoveSaga(reg, db, runId, move);
  }

  lemma AdvanceEffects(wf: Workflow, db: Db, runId: RunId, w: World)
    requires runId in db.runs
    ensures var move := AdvanceMove(wf, db, runId, w);
      && (forall i :: 0 <= i < |move.effects| ==> move.effects[i].ChildStarted? && move.effects[i].runId == runId)
      && (move.run.status == Failed ==> db.runs[runId].status == Failed)
  {
  }

  lemma AdvanceSaga(reg: Registry, db: Db, runId: RunId, w: World)
    requires RegistryOk(reg) && DbOk(reg, db) && SagaOk(reg, db)
    ensures SagaOk(reg, Advance(reg, db, runId, w))
  {
    if runId in db.runs && !Terminal(db.runs[runId].status) {
      var wf := reg[db.runs[runId].workflow];
      var move := AdvanceMove(wf, db, runId, w);
      AdvanceEffects(wf, db, runId, w);
      AdvanceMoveOwn(wf, db, runId, w);
      AdvanceMoveOk(wf, db, runId, w);
      NoCalls(move.effects, runId);
      QuietMoveSaga(reg, db, runId, move);
    }
  }

  lemma {:induction false} CompensateAllOwned(wf: Workflow, names: seq<string>, ctx: Ctx, w: World)
    ensures forall i :: 0 <= i < |CompensateAll(wf, names, ctx, w)| ==>
      CompensateAll(wf, names, ctx, w)[i].runId == ctx.runId
  {
    if names != [] {
      CompensateAllOwned(wf, names[..|names| - 1], ctx, w);
    }
  }

  lemma CompensateSaga(reg: Registry, db: Db, runId: RunId, w: World)
    requires RegistryOk(reg) && DbOk(reg, db) && SagaOk(reg, db)
    ensures SagaOk(reg, Compensate(reg, db, runId, w))
  {
    if runId in db.runs && db.runs[runId].status == Compensating {
      var run := db.runs[runId];
      var wf := reg[run.workflow];
      WalkExpected(wf.steps, db, runId, CompensateMove(wf, db, runId, w));
      WalkCalls(wf, db, runId, w);
      WalkOwned(wf, db, runId, w);
      ApplyMoveSaga(reg, db, runId, CompensateMove(wf, db, runId, w));
    }
  }

  /** No call before the walk, and the walk's calls are all. */
  lemma WalkExpected(steps: seq<Node>, db: Db, r: RunId, move: Move)
    requires r in db.runs && db.runs[r].status == Compensating && db.runs[r].currentStep <= |steps|
    requires Calls(db.log, r) == ExpectedCalls(steps, db.runs[r], r)
    ensures Calls(db.log, r) + Calls(move.effects, r) == Calls(move.effects, r)
  {
  }

  lemma WalkOwned(wf: Workflow, db: Db, r: RunId, w: World)
    requires r in db.runs
    ensures var effects := CompensateMove(wf, db, r, w).effects;
      forall i :: 0 <= i < |effects| ==> effects[i].runId == r
  {
    var run := db.runs[r];
    CompensateAllOwned(wf, Reverse(CompletedNames(db.journal, r)), Ctx(run.input, run.state.results, r, 1), w);
  }

  lemma SignalSaga(reg: Registry, db: Db, runId: RunId, signal: string, payload: Value)
    requires RegistryOk(reg) && DbOk(reg, db) && SagaOk(reg, db)
    ensures SagaOk(reg, Signal(db, runId, signal, payload))
  {
    var target := SignalTarget(db, runId, signal);
    if target.Some? {
      var run := db.runs[runId];
      var move := SignalMove(run, runId, target.value, payload);
      SignalMoveOk(reg[run.workflow].steps, run, runId, CompletedRows(db.journal, runId), signal, payload);
      SignalMoveOwn(run, runId, target.value, payload);
      SignalEffects(run, runId, target.value, payload);
      QuietMoveSaga(reg, db, runId, move);
    }
  }

  lemma SignalEffects(run: Run, runId: RunId, nodeName: string, payload: Value)
    ensures var move := SignalMove(run, runId, nodeName, payload);
      && move.run.status == Running
      && (forall i :: 0 <= i < |move.effects| ==> move.effects[i].runId == runId)
      && Calls(move.effects, runId) == []
  {
    NoCalls(SignalMove(run, runId, nodeName, payload).effects, runId);
  }

  lemma StartSaga(reg: Registry, db: Db, workflow: string, input: Value)
    requires KeysOk(db) && SagaOk(reg, db)
    ensures SagaOk(reg, Start(reg, db, workflow, input))
  {
    NoNewCalls(db, db.nextRun);
  }

  lemma NoNewCalls(db: Db, r: RunId)
    requires LogOwned(db) && r !in db.runs
    ensures Calls(db.log, r) == []
  {
    NoCalls(db.log, r);
  }

  lemma NextSaga(reg: Registry, db: Db, event: Event)
    requires RegistryOk(reg) && DbOk(reg, db) && SagaOk(reg, db)
    ensures SagaOk(reg, Next(reg, db, event))
  {
    match event {
      case StartEvent(workflow, input) => StartSaga(reg, db, workflow, input);
      case Deliver(job, w) =>
        if job in db.jobs {
          HandleSaga(reg, db.(jobs := db.jobs - {job}), db.jobs[job], w);
        }
      case Redeliver(stray, w) => HandleSaga(reg, db, stray, w);
      case SignalEvent(runId, signal, payload) => SignalSaga(reg, db, runId, signal, payload);
    }
  }

  lemma HandleSaga(reg: Registry, db: Db, job: Job, w: World)
    requires RegistryOk(reg) && DbOk(reg, db) && SagaOk(reg, db)
    ensures SagaOk(reg, Handle(reg, db, job, w))
  {
    match job {
      case AdvanceJob(runId, _) => AdvanceSaga(reg, db, runId, w);
      case CompensateJob(runId) => CompensateSaga(reg, db, runId, w);
    }
  }

  lemma {:induction false} ReachableSaga(reg: Registry, events: seq<Event>)
    requires RegistryOk(reg)
    ensures SagaOk(reg, Exec(reg, events))
  {
    if events != [] {
      ReachableSaga(reg, events[..|events| - 1]);
      ReachableOk(reg, events[..|events| - 1]);
      NextSaga(reg, Exec(reg, events[..|events| - 1]), events[|events| - 1]);
    }
  }

  lemma {:induction false} CompensableEarlier(steps: seq<Node>, n: nat, name: string)
    requires n <= |steps| && name in CompensableBefore(steps, n)
    ensures exists i :: 0 <= i < n && Compensable(steps[i]) && steps[i].name == name
  {
    if !(Compensable(steps[n - 1]) && steps[n - 1].name == name) {
      CompensableEarlier(steps, n - 1, name);
    }
  }

  lemma {:induction false} FindNodeNamed(steps: seq<Node>, name: string)
    requires FindNode(steps, name).Some?
    ensures exists j :: 0 <= j < |steps| && steps[j] == FindNode(steps, name).value && steps[j].name == name
  {
    if steps[|steps| - 1].name != name {
      FindNodeNamed(steps[..|steps| - 1], name);
      var j :| 0 <= j < |steps| - 1 && steps[..|steps| - 1][j] == FindNode(steps, name).value
        && steps[..|steps| - 1][j].name == name;
      assert steps[j] == FindNode(steps, name).value;
    }
  }

  lemma FailingNodeKept(steps: seq<Node>, run: Run, i: nat)
    requires WellNamed(steps) && run.currentStep < |steps| && i < |ToUndo(steps, run)|
    ensures ToUndo(steps, run)[i] != steps[run.currentStep].name
  {
    if i < |CompensableBefore(steps, run.currentStep)| {
      CompensableEarlier(steps, run.currentStep, ToUndo(steps, run)[i]);
    }
  }

  /** Saga order. However jobs are redelivered and whichever compensators throw: a run that
      has not failed has caused no compensator call; a failed run has caused, once each and in
      reverse declaration order, exactly the calls of the compensators of the `step` nodes
      before its cursor, each seeing the results the run ended with; and never the call of the
      node that failed. The one exception is a later step that bears the key of the failed
      loop's last iteration: its compensator is called first. */
  lemma SagaOrder(reg: Registry, events: seq<Event>, r: RunId)
    requires RegistryOk(reg) && r in Exec(reg, events).runs
    ensures var db := Exec(reg, events);
      var run := db.runs[r];
      && run.workflow in reg && run.currentStep <= |reg[run.workflow].steps|
      && var steps := reg[run.workflow].steps;
      && (run.status != Failed ==> Calls(db.log, r) == [])
      && (run.status == Failed ==>
            && Calls(db.log, r) == WithCtx(Reverse(ToUndo(steps, run)), Ctx(run.input, run.state.results, r, 1))
            && run.currentStep < |steps|
            && (forall i :: 0 <= i < |Calls(db.log, r)| ==> Calls(db.log, r)[i].0 != steps[run.currentStep].name))
  {
    ReachableOk(reg, events);
    ReachableSaga(reg, events);
    var db := Exec(reg, events);
    var run := db.runs[r];
    var steps := reg[run.workflow].steps;
    if run.status == Failed {
      var undo := ToUndo(steps, run);
      forall i | 0 <= i < |undo|
        ensures Reverse(undo)[i] != steps[run.currentStep].name
      {
        FailingNodeKept(steps, run, |undo| - 1 - i);
      }
    }
  }

  // ----- When the rollback is that of the completed steps ------------------------------------------

  lemma ReverseInjective<T>(a: seq<T>, b: seq<T>)
    ensures Reverse(a) == Reverse(b) <==> a == b
  {
    if Reverse(a) == Reverse(b) {
      forall i | 0 <= i < |a|
        ensures a[i] == b[i]
      {
        assert Reverse(a)[|a| - 1 - i] == Reverse(b)[|a| - 1 - i];
      }
    }
  }

  lemma SameCalls(a: seq<string>, b: seq<string>, ctx: Ctx)
    ensures WithCtx(Reverse(a), ctx) == WithCtx(Reverse(b), ctx) <==> a == b
  {
    ReverseInjective(a, b);
    var x, y := Reverse(a), Reverse(b);
    if WithCtx(x, ctx) == WithCtx(y, ctx) {
      assert |WithCtx(x, ctx)| == |x| && |WithCtx(y, ctx)| == |y|;
      forall i | 0 <= i < |x|
        ensures x[i] == y[i]
      {
        assert WithCtx(x, ctx)[i] == WithCtx(y, ctx)[i];
      }
    }
  }

  /** The rollback of the first `n` nodes, as a failed run should make it. */
  function UndoCalls(steps: seq<Node>, n: nat, run: Run, r: RunId): seq<(string, Ctx)>
    requires n <= |steps|
  {
    WithCtx(Reverse(CompensableBefore(steps, n)), Ctx(run.input, run.state.results, r, 1))
  }

  /** A failed run has undone exactly the completed steps if and only if no step is mistaken for
      one. It has also undone the step that failed, as the documentation has it, if and only
      if moreover that node has nothing to undo. */
  lemma UndoneExactlyWhen(reg: Registry, events: seq<Event>, r: RunId)
    requires RegistryOk(reg) && r in Exec(reg, events).runs && Exec(reg, events).runs[r].status == Failed
    ensures var db := Exec(reg, events);
      var run := db.runs[r];
      && run.workflow in reg && run.currentStep < |reg[run.workflow].steps|
      && var steps := reg[run.workflow].steps;
      && (Calls(db.log, r) == UndoCalls(steps, run.currentStep, run, r) <==> Mistaken(steps, run) == [])
      && (Calls(db.log, r) == UndoCalls(steps, run.currentStep + 1, run, r) <==>
            Mistaken(steps, run) == [] && !Compensable(steps[run.currentStep]))
  {
    SagaOrder(reg, events, r);
    var run := Exec(reg, events).runs[r];
    UndoneBy(reg[run.workflow].steps, run, r, Calls(Exec(reg, events).log, r));
  }

  lemma UndoneBy(steps: seq<Node>, run: Run, r: RunId, calls: seq<(string, Ctx)>)
    requires run.currentStep < |steps|
    requires calls == WithCtx(Reverse(ToUndo(steps, run)), Ctx(run.input, run.state.results, r, 1))
    ensures calls == UndoCalls(steps, run.currentStep, run, r) <==> Mistaken(steps, run) == []
    ensures calls == UndoCalls(steps, run.currentStep + 1, run, r)
      <==> Mistaken(steps, run) == [] && !Compensable(steps[run.currentStep])
  {
    var ctx := Ctx(run.input, run.state.results, r, 1);
    SameCalls(ToUndo(steps, run), CompensableBefore(steps, run.currentStep), ctx);
    SameCalls(ToUndo(steps, run), CompensableBefore(steps, run.currentStep + 1), ctx);
    ToUndoIs(steps, run);
  }

  lemma ToUndoIs(steps: seq<Node>, run: Run)
    requires run.currentStep < |steps|
    ensures ToUndo(steps, run) == CompensableBefore(steps, run.currentStep) <==> Mistaken(steps, run) == []
    ensures ToUndo(steps, run) == CompensableBefore(steps, run.currentStep + 1)
      <==> Mistaken(steps, run) == [] && !Compensable(steps[run.currentStep])
  {
    var own := if Compensable(steps[run.currentStep]) then [steps[run.currentStep].name] else [];
    assert Compensable(steps[run.currentStep]) ==> Mistaken(steps, run) == [];
    SameTail(CompensableBefore(steps, run.currentStep), Mistaken(steps, run), []);
    SameTail(CompensableBefore(steps, run.currentStep), Mistaken(steps, run), own);
    NilRight(CompensableBefore(steps, run.currentStep));
  }

  lemma SameTail<T>(a: seq<T>, b: seq<T>, c: seq<T>)
    ensures a + b == a + c <==> b == c
  {
    assert (a + b)[|a|..] == b && (a + c)[|a|..] == c;
  }

  /** No step with a compensator is named as the last iteration of an earlier loop. */
  ghost predicate NoLookalikes(steps: seq<Node>) {
    forall i, j :: 0 <= i < j < |steps| && steps[i].Loop? && steps[i].maxIterations > 0 && Compensable(steps[j]) ==>
      steps[j].name != IterKey(steps[i].name, steps[i].maxIterations - 1)
  }

  /** Then no run ever mistakes a step. */
  lemma NothingMistaken(steps: seq<Node>, run: Run)
    requires WellNamed(steps) && NoLookalikes(steps)
    ensures Mistaken(steps, run) == []
  {
    if Mistaken(steps, run) != [] {
      var i, node := run.currentStep, steps[run.currentStep];
      var key := IterKey(node.name, node.maxIterations - 1);
      FindNodeNamed(steps, key);
      var j :| 0 <= j < |steps| && steps[j] == FindNode(steps, key).value && steps[j].name == key;
      if j <= i {
        NotAnIteration(steps, i, j, node.maxIterations - 1);
      }
    }
  }
}
