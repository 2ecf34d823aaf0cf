/** Small steps against one big step: a child-free run with pure callbacks ends with exactly the
    answer of a straight-line interpreter, under any interleaving and any redelivery. */
module DurableBigStep {
  import opened Prelude
  import opened DurableTypes
  import opened DurableSpec
  import opened DurableJournal
  import opened DurableRunInvariant
  import opened DurableReachable
  import opened DurableChange
  import opened DurableHistory

  // ----- The straight-line interpreter --------------------------------------------------------------

  /** A pure callback answers the same in every world; the interpreter asks it in this one. */
  const HERE := World(0, 0)

  /** The branch declared last under a key. */
  function LastUnder(branches: seq<(string, Handler)>, key: string): (r: Option<nat>)
    ensures r.None? ==> NoSuchBranch(branches, key)
    ensures r.Some? ==> LeadsTo(branches, key, r.value)
  {
    if branches == [] then None
    else if branches[|branches| - 1].0 == key then Some(|branches| - 1)
    else LastUnder(branches[..|branches| - 1], key)
  }

  /** What the branches that reject say. */
  function ErrorsOf(branches: seq<(string, Handler)>, ctx: Ctx): set<string> {
    set i | 0 <= i < |branches| && branches[i].1(ctx, HERE).Err? :: branches[i].1(ctx, HERE).error
  }

  predicate AllResolve(branches: seq<(string, Handler)>, ctx: Ctx) {
    forall i :: 0 <= i < |branches| ==> branches[i].1(ctx, HERE).Ok?
  }

  /** Each declared key with what its branch says. */
  function ValuesOf(branches: seq<(string, Handler)>, ctx: Ctx): map<string, Value>
    requires AllResolve(branches, ctx)
  {
    var keys := set i | 0 <= i < |branches| :: branches[i].0;
    map key | key in keys :: ValueUnder(branches, key, ctx)
  }

  function ValueUnder(branches: seq<(string, Handler)>, key: string, ctx: Ctx): Value
    requires AllResolve(branches, ctx)
    requires exists i :: 0 <= i < |branches| && branches[i].0 == key
  {
    branches[LastUnder(branches, key).value].1(ctx, HERE).value
  }

  /** A value, or the one error. */
  function Single(handled: Result<Value, string>): Result<Value, set<string>> {
    match handled
    case Ok(value) => Ok(value)
    case Err(error) => Err({error})
  }

  /** An attempt of the interpreter: a value, or the errors it may end with. There is only one,
      except that the branches of a parallel node may settle in any order. */
  function Attempted(node: Node, ctx: Ctx): Result<Value, set<string>>
    requires node.Step? || node.Parallel? || node.Route?
  {
    match node
    case Step(_, handler, _, _, _) => Single(handler(ctx, HERE))
    case Parallel(_, branches, _, _) =>
      if AllResolve(branches, ctx) then Ok(Record(ValuesOf(branches, ctx))) else Err(ErrorsOf(branches, ctx))
    case Route(name, select, branches, _, _) =>
      match select(ctx, HERE)
      case Err(error) => Err({error})
      case Ok(key) =>
        match LastUnder(branches, key)
        case None => Err({UnknownBranchError(name, key, branches)})
        case Some(i) =>
          match branches[i].1(ctx, HERE)
          case Err(error) => Err({error})
          case Ok(value) => Ok(Record(map["branch" := Str(key), "result" := value]))
  }

  /** A handler with its retry budget: the first success, else the last attempt's errors. */
  function Retrying(node: Node, input: Value, results: map<string, Value>, r: RunId, attempt: nat)
    : Result<Value, set<string>>
    requires node.Step? || node.Parallel? || node.Route?
    decreases if attempt < node.maxAttempts then node.maxAttempts - attempt else 0
  {
    match Attempted(node, Ctx(input, results, r, attempt))
    case Ok(value) => Ok(value)
    case Err(errors) =>
      if attempt < node.maxAttempts then Retrying(node, input, results, r, attempt + 1) else Err(errors)
  }

  /** A loop from a given iteration on. The bound is checked before the condition, and all
      iterations share one retry budget. */
  function Looping(node: Node, input: Value, results: map<string, Value>, r: RunId, slot: Slot, attempt: nat)
    : Result<Value, set<string>>
    requires node.Loop?
    decreases
      if slot.iteration < node.maxIterations then node.maxIterations - slot.iteration else 0,
      if attempt < node.maxAttempts then node.maxAttempts - attempt else 0
  {
    var ctx := Ctx(input, results, r, attempt);
    if slot.iteration >= node.maxIterations then Err({LoopBoundError(node.maxIterations)})
    else
      match node.condition(ctx, slot.iteration, HERE)
      case Err(error) => Err({error})
      case Ok(keepGoing) =>
        if !keepGoing then Ok(List(slot.results))
        else
          match node.body(ctx, slot.iteration, HERE)
          case Ok(value) =>
            Looping(node, input, results, r, Slot(slot.iteration + 1, slot.results + [value]), attempt)
          case Err(error) =>
            if attempt < node.maxAttempts then Looping(node, input, results, r, slot, attempt + 1) else Err({error})
  }

  function Evaluate(node: Node, input: Value, results: map<string, Value>, r: RunId, signals: string -> Value,
      slot: Slot, attempt: nat): Result<Value, set<string>>
    requires !node.ChildWorkflow?
  {
    match node
    case Sleep(_, _) => Ok(SleptValue(SleepSeconds(node, Ctx(input, results, r, attempt), HERE)))
    case WaitForSignal(name, _) => Ok(signals(name))
    case Loop(_, _, _, _, _, _) => Looping(node, input, results, r, slot, attempt)
    case Step(_, _, _, _, _) => Retrying(node, input, results, r, attempt)
    case Parallel(_, _, _, _) => Retrying(node, input, results, r, attempt)
    case Route(_, _, _, _, _) => Retrying(node, input, results, r, attempt)
  }

  /** A node's own answer: evaluated from its first iteration and attempt on. */
  function Own(node: Node, input: Value, results: map<string, Value>, r: RunId, signals: string -> Value)
    : Result<Value, set<string>>
    requires !node.ChildWorkflow?
  {
    Evaluate(node, input, results, r, signals, Slot(0, []), 1)
  }

  datatype Answer =
    | Finished(results: map<string, Value>)
    | FailedAt(step: nat, errors: set<string>, results: map<string, Value>)

  ghost predicate ChildFree(steps: seq<Node>) {
    forall i :: 0 <= i < |steps| ==> !steps[i].ChildWorkflow?
  }

  /** The workflow run straight through from node `i`, given the payload each signal node gets. */
  function Interpret(steps: seq<Node>, input: Value, r: RunId, signals: string -> Value, i: nat,
      results: map<string, Value>): Answer
    requires ChildFree(steps)
    decreases |steps| - i
  {
    if i >= |steps| then Finished(results)
    else
      match Own(steps[i], input, results, r, signals)
      case Err(errors) => FailedAt(i, errors, results)
      case Ok(value) => Interpret(steps, input, r, signals, i + 1, results[steps[i].name := value])
  }

  /** The interpreter's results after `n` nodes, unless one of them fails. */
  function ResultsUpTo(steps: seq<Node>, input: Value, r: RunId, signals: string -> Value, n: nat)
    : Option<map<string, Value>>
    requires ChildFree(steps) && n <= |steps|
  {
    if n == 0 then Some(map[])
    else
      match ResultsUpTo(steps, input, r, signals, n - 1)
      case None => None
      case Some(results) =>
        match Own(steps[n - 1], input, results, r, signals)
        case Err(_) => None
        case Ok(value) => Some(results[steps[n - 1].name := value])
  }

  lemma {:induction false} InterpretResumes(steps: seq<Node>, input: Value, r: RunId, signals: string -> Value, n: nat)
    requires ChildFree(steps) && n <= |steps| && ResultsUpTo(steps, input, r, signals, n).Some?
    ensures Interpret(steps, input, r, signals, 0, map[])
      == Interpret(steps, input, r, signals, n, ResultsUpTo(steps, input, r, signals, n).value)
  {
    if n > 0 {
      InterpretResumes(steps, input, r, signals, n - 1);
    }
  }

  // ----- Purity ---------------------------------------------------------------------------------------

  ghost predicate PureBranches(branches: seq<(string, Handler)>) {
    forall i, c, w :: 0 <= i < |branches| ==> branches[i].1(c, w) == branches[i].1(c, HERE)
  }

  ghost predicate PureNode(node: Node) {
    match node
    case Step(_, handler, _, _, _) => forall c, w :: handler(c, w) == handler(c, HERE)
    case Sleep(_, delay) => forall c, w :: delay(c, w) == delay(c, HERE)
    case WaitForSignal(_, _) => true
    case Parallel(_, branches, _, _) => PureBranches(branches)
    case Route(_, select, branches, _, _) =>
      (forall c, w :: select(c, w) == select(c, HERE)) && PureBranches(branches)
    case Loop(_, condition, body, _, _, _) =>
      && (forall c, k, w :: condition(c, k, w) == condition(c, k, HERE))
      && (forall c, k, w :: body(c, k, w) == body(c, k, HERE))
    case ChildWorkflow(_, _, _) => false
  }

  ghost predicate PureSteps(steps: seq<Node>)
    ensures PureSteps(steps) ==> ChildFree(steps)
  {
    forall i :: 0 <= i < |steps| ==> PureNode(steps[i])
  }

  lemma {:induction false} RejectionsAre(branches: seq<(string, Handler)>, ctx: Ctx, w: World)
    requires PureBranches(branches)
    ensures (set e | e in Rejections(branches, ctx, w)) == ErrorsOf(branches, ctx)
    ensures Rejections(branches, ctx, w) == [] <==> AllResolve(branches, ctx)
  {
    if branches != [] {
      var init, last := branches[..|branches| - 1], |branches| - 1;
      RejectionsAre(init, ctx, w);
      assert branches[last].1(ctx, w) == branches[last].1(ctx, HERE);
      OneMoreError(branches, ctx);
      assert AllResolve(branches, ctx) <==> AllResolve(init, ctx) && branches[last].1(ctx, HERE).Ok?;
    }
  }

  lemma OneMoreError(branches: seq<(string, Handler)>, ctx: Ctx)
    requires branches != []
    ensures var init, said := branches[..|branches| - 1], branches[|branches| - 1].1(ctx, HERE);
      ErrorsOf(branches, ctx) == ErrorsOf(init, ctx) + (if said.Err? then {said.error} else {})
  {
    var init, last := branches[..|branches| - 1], |branches| - 1;
    forall i | 0 <= i < last
      ensures init[i] == branches[i]
    {
    }
  }

  lemma {:induction false} ResultsAre(branches: seq<(string, Handler)>, ctx: Ctx, w: World)
    requires PureBranches(branches) && AllResolve(branches, ctx)
    ensures BranchResults(branches, ctx, w) == ValuesOf(branches, ctx)
  {
    if branches != [] {
      var init, last := branches[..|branches| - 1], |branches| - 1;
      ResultsAre(init, ctx, w);
      assert branches[last].1(ctx, w) == branches[last].1(ctx, HERE);
      OneMoreValue(branches, ctx);
    }
  }

  lemma OneMoreValue(branches: seq<(string, Handler)>, ctx: Ctx)
    requires branches != [] && AllResolve(branches, ctx)
    ensures var init, last := branches[..|branches| - 1], branches[|branches| - 1];
      AllResolve(init, ctx) && ValuesOf(branches, ctx) == ValuesOf(init, ctx)[last.0 := last.1(ctx, HERE).value]
  {
    var init, last := branches[..|branches| - 1], branches[|branches| - 1];
    OneMoreKey(branches);
    var a, b := ValuesOf(branches, ctx), ValuesOf(init, ctx)[last.0 := last.1(ctx, HERE).value];
    assert a.Keys == b.Keys;
    forall key | key in a
      ensures a[key] == b[key]
    {
      if key != last.0 {
        assert LastUnder(branches, key) == LastUnder(init, key);
      }
    }
  }

  lemma OneMoreKey(branches: seq<(string, Handler)>)
    requires branches != []
    ensures var init, last := branches[..|branches| - 1], branches[|branches| - 1];
      (set i | 0 <= i < |branches| :: branches[i].0) == (set i | 0 <= i < |init| :: init[i].0) + {last.0}
  {
    var init := branches[..|branches| - 1];
    forall i | 0 <= i < |init|
      ensures init[i] == branches[i]
    {
    }
  }

  /** What an attempt in the engine says is what the interpreter's attempt allows. */
  predicate Allows(answer: Result<Value, set<string>>, handled: Result<Value, string>) {
    match handled
    case Ok(value) => answer == Ok(value)
    case Err(error) => answer.Err? && error in answer.error
  }

  lemma ParallelPure(node: Node, ctx: Ctx, w: World)
    requires node.Parallel? && PureNode(node)
    ensures Allows(Attempted(node, ctx), RunHandler(node, ctx, w))
  {
    var rejections := Rejections(node.branches, ctx, w);
    RejectionsAre(node.branches, ctx, w);
    if rejections != [] {
      assert rejections[w.nonce % |rejections|] in (set e | e in rejections);
    } else {
      ResultsAre(node.branches, ctx, w);
    }
  }

  lemma RoutePure(node: Node, ctx: Ctx, w: World)
    requires node.Route? && PureNode(node)
    ensures Allows(Attempted(node, ctx), RunHandler(node, ctx, w))
  {
    assert node.select(ctx, w) == node.select(ctx, HERE);
    if node.select(ctx, w).Ok? {
      var key := node.select(ctx, w).value;
      BranchFound(node.branches, key);
      if LastUnder(node.branches, key).Some? {
        var i := LastUnder(node.branches, key).value;
        assert node.branches[i].1(ctx, w) == node.branches[i].1(ctx, HERE);
      }
    }
  }

  lemma RunHandlerPure(node: Node, ctx: Ctx, w: World)
    requires (node.Step? || node.Parallel? || node.Route?) && PureNode(node)
    ensures Allows(Attempted(node, ctx), RunHandler(node, ctx, w))
  {
    match node {
      case Step(_, handler, _, _, _) => assert handler(ctx, w) == handler(ctx, HERE);
      case Parallel(_, _, _, _) => ParallelPure(node, ctx, w);
      case Route(_, _, _, _, _) => RoutePure(node, ctx, w);
    }
  }

  // ----- One node -------------------------------------------------------------------------------------

  /** Running a node once moves along the interpreter's evaluation of it. */
  predicate Agrees(nr: NodeRun, node: Node, input: Value, results: map<string, Value>, r: RunId,
      signals: string -> Value, slot: Slot, attempt: nat)
    requires !node.ChildWorkflow?
  {
    var now := Evaluate(node, input, results, r, signals, slot, attempt);
    var after := SlotOf(nr.state, node.name);
    match nr.outcome
    case NodeDone(value, _) => now == Ok(value)
    case Retry(failed, _) => failed == attempt && now == Evaluate(node, input, results, r, signals, after, attempt + 1)
    case Exhausted(_, error) =>
      now.Err? && error in now.error && now == Evaluate(node, input, results, r, signals, after, attempt)
    case Parked(_) => now == Evaluate(node, input, results, r, signals, after, attempt)
  }

  lemma HandlerAgrees(db: Db, node: Node, ctx: Ctx, st: State, w: World, signals: string -> Value)
    requires (node.Step? || node.Parallel? || node.Route?) && PureNode(node)
    ensures Agrees(RunNode(db, node, ctx, st, ctx.attempt, w), node, ctx.input, ctx.results, ctx.runId, signals,
      SlotOf(st, node.name), ctx.attempt)
  {
    RunHandlerPure(node, ctx, w);
  }

  lemma BodyAgrees(node: Node, key: string, ctx: Ctx, st: State, slot: Slot, w: World, signals: string -> Value)
    requires node.Loop? && PureNode(node) && SlotOf(st, node.name) == slot
    requires slot.iteration < node.maxIterations && node.condition(ctx, slot.iteration, HERE) == Ok(true)
    ensures Agrees(RunBody(node, key, ctx, st, slot, ctx.attempt, w), node, ctx.input, ctx.results, ctx.runId, signals,
      slot, ctx.attempt)
  {
    assert node.body(ctx, slot.iteration, w) == node.body(ctx, slot.iteration, HERE);
  }

  lemma LoopAgrees(db: Db, node: Node, ctx: Ctx, st: State, w: World, signals: string -> Value)
    requires node.Loop? && PureNode(node) && ReadsOwnSlot(db, node, ctx, st)
    ensures Agrees(RunNode(db, node, ctx, st, ctx.attempt, w), node, ctx.input, ctx.results, ctx.runId, signals,
      SlotOf(st, node.name), ctx.attempt)
  {
    var slot := SlotOf(st, node.name);
    var st1 := st.(loopState := st.loopState[node.name := slot]);
    assert node.condition(ctx, slot.iteration, w) == node.condition(ctx, slot.iteration, HERE);
    if slot.iteration < node.maxIterations && node.condition(ctx, slot.iteration, HERE) == Ok(true) {
      BodyAgrees(node, IterKey(node.name, slot.iteration), ctx, st1, slot, w, signals);
    }
  }

  /** The loop has reached its bound, or finds no row under the key of its next iteration. */
  predicate ReadsOwnSlot(db: Db, node: Node, ctx: Ctx, st: State)
    requires node.Loop?
  {
    SlotOf(st, node.name).iteration < node.maxIterations ==>
      ReplaySlot(db.journal, ctx.runId, node, st) == SlotOf(st, node.name)
  }

  lemma NodeAgrees(db: Db, node: Node, ctx: Ctx, st: State, w: World, signals: string -> Value)
    requires PureNode(node)
    requires node.Loop? ==> ReadsOwnSlot(db, node, ctx, st)
    ensures Agrees(RunNode(db, node, ctx, st, ctx.attempt, w), node, ctx.input, ctx.results, ctx.runId, signals,
      SlotOf(st, node.name), ctx.attempt)
  {
    match node {
      case Loop(_, _, _, _, _, _) => LoopAgrees(db, node, ctx, st, w, signals);
      case Sleep(_, _) =>
      case WaitForSignal(_, _) =>
      case Step(_, _, _, _, _) => HandlerAgrees(db, node, ctx, st, w, signals);
      case Parallel(_, _, _, _) => HandlerAgrees(db, node, ctx, st, w, signals);
      case Route(_, _, _, _, _) => HandlerAgrees(db, node, ctx, st, w, signals);
    }
  }

  // ----- One run -----------------------------------------------------------------------------------------

  /** The interpreter's evaluation of the node under the cursor, from where the run stands. */
  function Now(steps: seq<Node>, run: Run, r: RunId, signals: string -> Value): Result<Value, set<string>>
    requires ChildFree(steps) && run.currentStep < |steps|
  {
    var node := steps[run.currentStep];
    Evaluate(node, run.input, run.state.results, r, signals, SlotOf(run.state, node.name),
      Attempt(run.state, node.name))
  }

  /** The stored results are the nodes' own, and the node under the cursor is on its way to its
      own answer, which is the error once the run is rolling back. */
  predicate OnCourse(steps: seq<Node>, run: Run, r: RunId, signals: string -> Value)
    requires ChildFree(steps)
  {
    && run.currentStep <= |steps|
    && ResultsUpTo(steps, run.input, r, signals, run.currentStep) == Some(run.state.results)
    && (run.currentStep < |steps| ==>
          Now(steps, run, r, signals) == Own(steps[run.currentStep], run.input, run.state.results, r, signals))
    && FailsTruly(steps, run, r, signals)
  }

  /** A run rolls back only because the node under the cursor has failed, with that error. */
  predicate FailsTruly(steps: seq<Node>, run: Run, r: RunId, signals: string -> Value)
    requires ChildFree(steps)
  {
    run.status in {Compensating, Failed} ==>
      && run.currentStep < |steps| && run.error.Some?
      && Allows(Own(steps[run.currentStep], run.input, run.state.results, r, signals), Err(run.error.value))
  }

  lemma OutcomeOnCourse(steps: seq<Node>, run: Run, r: RunId, signals: string -> Value, nr: NodeRun,
      effects: seq<Effect>)
    requires WellNamed(steps) && PureSteps(steps) && run.currentStep < |steps| && !Terminal(run.status)
    requires NodeRunOk(steps, run, r, nr) && OnCourse(steps, run, r, signals)
    requires var node := steps[run.currentStep];
      Agrees(nr, node, run.input, run.state.results, r, signals, SlotOf(run.state, node.name),
        Attempt(run.state, node.name))
    requires nr.state.stepAttempts == run.state.stepAttempts
    ensures OnCourse(steps, ApplyOutcome(run, r, steps[run.currentStep], nr, effects).run, r, signals)
  {
    if nr.outcome.NodeDone? {
      DoneOnCourse(steps, run, r, signals, nr, effects);
    } else {
      StayedOnCourse(steps, run, r, signals, nr, effects);
    }
  }

  /** A node that fails, is retried or waits leaves the interpreter's answer for the run as it was. */
  lemma StayedOnCourse(steps: seq<Node>, run: Run, r: RunId, signals: string -> Value, nr: NodeRun,
      effects: seq<Effect>)
    requires ChildFree(steps) && run.currentStep < |steps|
    requires nr.state.results == run.state.results && nr.state.stepAttempts == run.state.stepAttempts
    requires OnCourse(steps, run, r, signals) && !nr.outcome.NodeDone?
    requires var node := steps[run.currentStep];
      Agrees(nr, node, run.input, run.state.results, r, signals, SlotOf(run.state, node.name),
        Attempt(run.state, node.name))
    ensures OnCourse(steps, ApplyOutcome(run, r, steps[run.currentStep], nr, effects).run, r, signals)
  {
  }

  lemma DoneOnCourse(steps: seq<Node>, run: Run, r: RunId, signals: string -> Value, nr: NodeRun, effects: seq<Effect>)
    requires WellNamed(steps) && PureSteps(steps) && run.currentStep < |steps| && !Terminal(run.status)
    requires NodeRunOk(steps, run, r, nr) && OnCourse(steps, run, r, signals) && nr.outcome.NodeDone?
    requires var node := steps[run.currentStep];
      Agrees(nr, node, run.input, run.state.results, r, signals, SlotOf(run.state, node.name),
        Attempt(run.state, node.name))
    ensures OnCourse(steps, ApplyOutcome(run, r, steps[run.currentStep], nr, effects).run, r, signals)
  {
    SettledShape(steps, run, nr, nr.outcome.value);
    var after := ApplyOutcome(run, r, steps[run.currentStep], nr, effects).run;
    PassedOnCourse(steps, run, r, signals, nr.outcome.value, after);
  }

  /** A run that has just reached a node is about to evaluate it from scratch. */
  lemma FreshNow(steps: seq<Node>, run: Run, r: RunId, signals: string -> Value)
    requires ChildFree(steps) && run.state == EMPTY_STATE.(results := run.state.results)
    requires run.currentStep < |steps|
    ensures Now(steps, run, r, signals) == Own(steps[run.currentStep], run.input, run.state.results, r, signals)
  {
  }

  /** A run that has just passed a node with its own answer. */
  lemma PassedOnCourse(steps: seq<Node>, run: Run, r: RunId, signals: string -> Value, value: Value, after: Run)
    requires ChildFree(steps) && run.currentStep < |steps| && OnCourse(steps, run, r, signals)
    requires Now(steps, run, r, signals) == Ok(value)
    requires after.currentStep == run.currentStep + 1 && after.input == run.input
    requires after.state == EMPTY_STATE.(results := run.state.results[steps[run.currentStep].name := value])
    requires after.status !in {Compensating, Failed}
    ensures OnCourse(steps, after, r, signals)
  {
    if after.currentStep < |steps| {
      FreshNow(steps, after, r, signals);
    }
  }

  lemma AdvanceOnCourse(wf: Workflow, db: Db, r: RunId, w: World, signals: string -> Value)
    requires r in db.runs && !Terminal(db.runs[r].status) && WellNamed(wf.steps) && PureSteps(wf.steps)
    requires RunOk(wf.steps, db.runs[r], CompletedRows(db.journal, r))
    requires OnCourse(wf.steps, db.runs[r], r, signals)
    ensures OnCourse(wf.steps, AdvanceMove(wf, db, r, w).run, r, signals)
  {
    var run := db.runs[r];
    if run.currentStep < |wf.steps| {
      NodeNotReplayed(wf, db, r);
      var node := wf.steps[run.currentStep];
      var attempt := Attempt(run.state, node.name);
      var ctx := Ctx(run.input, run.state.results, r, attempt);
      if node.Loop? && SlotOf(run.state, node.name).iteration < node.maxIterations {
        SlotNotReplayed(wf.steps, db, run, r);
      }
      RunNodeOk(wf.steps, db, run, ctx, attempt, w);
      NodeAgrees(db, node, ctx, run.state, w, signals);
      AttemptsKept(db, node, ctx, run.state, attempt, w);
      var nr := RunNode(db, node, ctx, run.state, attempt, w);
      OutcomeOnCourse(wf.steps, run, r, signals, nr, []);
    }
  }

  lemma SignalOnCourse(steps: seq<Node>, run: Run, r: RunId, rows: seq<Entry>, signal: string, payload: Value,
      signals: string -> Value)
    requires WellNamed(steps) && PureSteps(steps) && RunOk(steps, run, rows) && run.status == Waiting
    requires FindAwaiting(run.state.awaitingSignals, signal).Some?
    requires OnCourse(steps, run, r, signals)
    requires signals(FindAwaiting(run.state.awaitingSignals, signal).value) == payload
    ensures OnCourse(steps,
      SignalMove(run, r, FindAwaiting(run.state.awaitingSignals, signal).value, payload).run, r, signals)
  {
    SignalMoveOk(steps, run, r, rows, signal, payload);
    var node := steps[run.currentStep];
    OnlyAwaiting(run.state.awaitingSignals, node.name, signal);
    SignalledShape(steps, run, payload);
    PassedOnCourse(steps, run, r, signals, payload, SignalMove(run, r, node.name, payload).run);
  }

  // ----- The whole system ----------------------------------------------------------------------------------

  /** Every payload accepted so far for the run is the one the interpreter is given. */
  ghost predicate SignalsAgree(log: seq<Effect>, r: RunId, signals: string -> Value) {
    forall i :: 0 <= i < |log| && log[i].SignalAccepted? && log[i].runId == r ==> signals(log[i].step) == log[i].payload
  }

  lemma NewRunOnCourse(steps: seq<Node>, workflow: string, input: Value, r: RunId, signals: string -> Value)
    requires ChildFree(steps)
    ensures OnCourse(steps, NewRun(workflow, input), r, signals)
  {
    if steps != [] {
      FreshNow(steps, NewRun(workflow, input), r, signals);
    }
  }

  lemma RolledBackOnCourse(steps: seq<Node>, run: Run, r: RunId, signals: string -> Value)
    requires ChildFree(steps) && OnCourse(steps, run, r, signals) && run.status == Compensating
    ensures OnCourse(steps, run.(status := Failed), r, signals)
  {
  }

  lemma ChangeOnCourse(reg: Registry, db: Db, r: RunId, after: Run, change: Change, signals: string -> Value)
    requires RegistryOk(reg) && after.workflow in reg && PureSteps(reg[after.workflow].steps)
    requires Explains(reg, db, r, after, change)
    requires r in db.runs ==> db.runs[r].workflow == after.workflow
    requires r in db.runs ==> RunOk(reg[after.workflow].steps, db.runs[r], CompletedRows(db.journal, r))
    requires r in db.runs ==> OnCourse(reg[after.workflow].steps, db.runs[r], r, signals)
    requires change.Signalled? ==> signals(SignalTarget(db, r, change.signal).value) == change.payload
    ensures OnCourse(reg[after.workflow].steps, after, r, signals)
  {
    match change {
      case Untouched =>
      case Created(workflow, input) => NewRunOnCourse(reg[workflow].steps, workflow, input, r, signals);
      case Advanced(w) => AdvanceOnCourse(reg[after.workflow], db, r, w, signals);
      case RolledBack => RolledBackOnCourse(reg[after.workflow].steps, db.runs[r], r, signals);
      case Signalled(signal, payload) =>
        SignalOnCourse(reg[after.workflow].steps, db.runs[r], r, CompletedRows(db.journal, r), signal, payload,
          signals);
    }
  }

  lemma NextOnCourse(reg: Registry, db: Db, event: Event, r: RunId, signals: string -> Value)
    requires RegistryOk(reg) && DbOk(reg, db) && r in Next(reg, db, event).runs
    requires var after := Next(reg, db, event).runs[r];
      after.workflow in reg && PureSteps(reg[after.workflow].steps)
    requires SignalsAgree(Next(reg, db, event).log, r, signals)
    requires r in db.runs && db.runs[r].workflow in reg && PureSteps(reg[db.runs[r].workflow].steps) ==>
      OnCourse(reg[db.runs[r].workflow].steps, db.runs[r], r, signals)
    ensures OnCourse(reg[Next(reg, db, event).runs[r].workflow].steps, Next(reg, db, event).runs[r], r, signals)
  {
    var after := Next(reg, db, event);
    DbOkKnown(reg, db);
    var change := NextChange(reg, db, event, r);
    SameWorkflow(reg, db, r, after.runs[r], change);
    if change.Signalled? {
      SignalLogged(db, r, change.signal, change.payload);
      assert after.log[|db.log|] == SignalAccepted(r, SignalTarget(db, r, change.signal).value, change.payload);
    }
    ChangeOnCourse(reg, db, r, after.runs[r], change, signals);
  }

  lemma {:induction false} ReachableOnCourse(reg: Registry, events: seq<Event>, r: RunId, signals: string -> Value)
    requires RegistryOk(reg) && r in Exec(reg, events).runs
    requires Exec(reg, events).runs[r].workflow in reg && PureSteps(reg[Exec(reg, events).runs[r].workflow].steps)
    requires SignalsAgree(Exec(reg, events).log, r, signals)
    ensures OnCourse(reg[Exec(reg, events).runs[r].workflow].steps, Exec(reg, events).runs[r], r, signals)
  {
    if events != [] {
      var init, event := events[..|events| - 1], events[|events| - 1];
      var db := Exec(reg, init);
      ReachableOk(reg, init);
      LogGrows(reg, db, event);
      if r in db.runs && db.runs[r].workflow in reg && PureSteps(reg[db.runs[r].workflow].steps) {
        ReachableOnCourse(reg, init, r, signals);
      }
      NextOnCourse(reg, db, event, r, signals);
    }
  }

  lemma SameWorkflow(reg: Registry, db: Db, r: RunId, after: Run, change: Change)
    requires Known(reg, db) && Explains(reg, db, r, after, change)
    ensures r in db.runs ==> db.runs[r].workflow == after.workflow && db.runs[r].input == after.input
  {
    if change.Advanced? {
      AdvanceMoveOwn(reg[db.runs[r].workflow], db, r, change.w);
    }
  }

  /** Small steps equal the big step. For a child-free workflow whose callbacks depend only on
      their context, and for any payloads that agree with the signals the run accepted: at every
      moment the stored results are the interpreter's results for the nodes passed so far; if the
      run ends completed its result is the interpreter's result map; if it ends failed the
      interpreter fails at the same node with the same results, and the error is one of those
      it allows there: the only one, except that the branches of a parallel node may settle in any
      order. Other runs may do anything in between, and jobs may be redelivered at will. */
  lemma SmallStepsAreBigStep(reg: Registry, events: seq<Event>, r: RunId, signals: string -> Value)
    requires RegistryOk(reg) && r in Exec(reg, events).runs
    requires Exec(reg, events).runs[r].workflow in reg && PureSteps(reg[Exec(reg, events).runs[r].workflow].steps)
    requires SignalsAgree(Exec(reg, events).log, r, signals)
    ensures var run := Exec(reg, events).runs[r];
      var steps := reg[run.workflow].steps;
      var answer := Interpret(steps, run.input, r, signals, 0, map[]);
      && run.currentStep <= |steps|
      && ResultsUpTo(steps, run.input, r, signals, run.currentStep) == Some(run.state.results)
      && (run.status == Completed ==> run.result.Some? && answer == Finished(run.result.value))
      && (run.status == Failed ==>
            && answer.FailedAt? && answer.step == run.currentStep && answer.results == run.state.results
            && run.error.Some? && run.error.value in answer.errors)
  {
    ReachableOnCourse(reg, events, r, signals);
    ReachableOk(reg, events);
    var run := Exec(reg, events).runs[r];
    InterpretResumes(reg[run.workflow].steps, run.input, r, signals, run.currentStep);
  }

  // ----- Accepted payloads -----------------------------------------------------------------------------------

  ghost predicate ResultsKept(before: Run, after: Run) {
    forall name :: name in before.state.results ==>
      name in after.state.results && after.state.results[name] == before.state.results[name]
  }

  lemma OutcomeKeepsResults(run: Run, r: RunId, node: Node, nr: NodeRun, effects: seq<Effect>)
    requires node.name !in run.state.results && nr.state.results == run.state.results
    ensures ResultsKept(run, ApplyOutcome(run, r, node, nr, effects).run)
  {
  }

  lemma AdvanceKeepsResults(wf: Workflow, db: Db, r: RunId, w: World)
    requires r in db.runs && WellNamed(wf.steps) && RunOk(wf.steps, db.runs[r], CompletedRows(db.journal, r))
    ensures ResultsKept(db.runs[r], AdvanceMove(wf, db, r, w).run)
  {
    var run := db.runs[r];
    if run.currentStep < |wf.steps| {
      NodeNotReplayed(wf, db, r);
      var node := wf.steps[run.currentStep];
      var attempt := Attempt(run.state, node.name);
      var ctx := Ctx(run.input, run.state.results, r, attempt);
      RunNodeOk(wf.steps, db, run, ctx, attempt, w);
      CursorNameIsNew(wf.steps, run.currentStep);
      OutcomeKeepsResults(run, r, node, RunNode(db, node, ctx, run.state, attempt, w), []);
    }
  }

  lemma SignalKeepsResults(steps: seq<Node>, run: Run, r: RunId, rows: seq<Entry>, signal: string, payload: Value)
    requires WellNamed(steps) && RunOk(steps, run, rows) && run.status == Waiting
    requires FindAwaiting(run.state.awaitingSignals, signal).Some?
    ensures var name := FindAwaiting(run.state.awaitingSignals, signal).value;
      var after := SignalMove(run, r, name, payload).run;
      ResultsKept(run, after) && name in after.state.results && after.state.results[name] == payload
  {
    SignalMoveOk(steps, run, r, rows, signal, payload);
    CursorNameIsNew(steps, run.currentStep);
  }

  lemma ChangeKeepsResults(reg: Registry, db: Db, r: RunId, after: Run, change: Change)
    requires RegistryOk(reg) && r in db.runs && r != db.nextRun && db.runs[r].workflow in reg
    requires RunOk(reg[db.runs[r].workflow].steps, db.runs[r], CompletedRows(db.journal, r))
    requires Explains(reg, db, r, after, change)
    ensures ResultsKept(db.runs[r], after)
  {
    match change {
      case Untouched =>
      case Created(_, _) =>
      case Advanced(w) => AdvanceKeepsResults(reg[db.runs[r].workflow], db, r, w);
      case RolledBack =>
      case Signalled(signal, payload) =>
        SignalKeepsResults(reg[db.runs[r].workflow].steps, db.runs[r], r, CompletedRows(db.journal, r), signal,
          payload);
    }
  }

  /** Every accepted payload is the result stored for its node. */
  ghost predicate PayloadsStored(log: seq<Effect>, r: RunId, run: Run) {
    forall i :: 0 <= i < |log| && log[i].SignalAccepted? && log[i].runId == r ==>
      log[i].step in run.state.results && run.state.results[log[i].step] == log[i].payload
  }

  ghost predicate NoneAccepted(log: seq<Effect>, r: RunId) {
    forall i :: 0 <= i < |log| && log[i].SignalAccepted? ==> log[i].runId != r
  }

  /** Signals accepted for a run are logged only by its own signal step. */
  lemma AcceptedBy(reg: Registry, db: Db, event: Event, r: RunId, i: nat)
    requires RegistryOk(reg) && Known(reg, db)
    requires |db.log| <= i < |Next(reg, db, event).log|
    requires Next(reg, db, event).log[i].SignalAccepted? && Next(reg, db, event).log[i].runId == r
    ensures event.SignalEvent? && event.runId == r && SignalTarget(db, r, event.signal).Some?
    ensures Next(reg, db, event).log[i] == SignalAccepted(r, SignalTarget(db, r, event.signal).value, event.payload)
  {
    match event {
      case StartEvent(_, _) =>
      case Deliver(job, w) =>
        if job in db.jobs {
          HandlersAcceptNothing(reg, db.(jobs := db.jobs - {job}), db.jobs[job], w, i);
        }
      case Redeliver(stray, w) => HandlersAcceptNothing(reg, db, stray, w, i);
      case SignalEvent(q, signal, payload) =>
        if SignalTarget(db, q, signal).Some? {
          SignalLogged(db, q, signal, payload);
        }
    }
  }

  lemma HandlersAcceptNothing(reg: Registry, db: Db, job: Job, w: World, i: nat)
    requires Known(reg, db) && |db.log| <= i < |Handle(reg, db, job, w).log|
    ensures !Handle(reg, db, job, w).log[i].SignalAccepted?
  {
    match job {
      case AdvanceJob(q, _) =>
        if AdvanceError(reg, db, q, w) == None && !Terminal(db.runs[q].status) {
          AdvanceAcceptsNothing(reg[db.runs[q].workflow], db, q, w);
          ApplyMoveRuns(db, q, AdvanceMove(reg[db.runs[q].workflow], db, q, w));
        }
      case CompensateJob(q) =>
        if q in db.runs && db.runs[q].status == Compensating {
          var run := db.runs[q];
          var wf := reg[run.workflow];
          RollbackAcceptsNothing(wf, Reverse(CompletedNames(db.journal, q)), Ctx(run.input, run.state.results, q, 1),
            w);
          ApplyMoveRuns(db, q, CompensateMove(wf, db, q, w));
        }
    }
  }

  predicate AcceptsNothing(effects: seq<Effect>) {
    forall i :: 0 <= i < |effects| ==> !effects[i].SignalAccepted?
  }

  lemma AdvanceAcceptsNothing(wf: Workflow, db: Db, r: RunId, w: World)
    requires r in db.runs
    ensures AcceptsNothing(AdvanceMove(wf, db, r, w).effects)
  {
  }

  lemma {:induction false} RollbackAcceptsNothing(wf: Workflow, names: seq<string>, ctx: Ctx, w: World)
    ensures AcceptsNothing(CompensateAll(wf, names, ctx, w))
  {
    if names != [] {
      RollbackAcceptsNothing(wf, names[..|names| - 1], ctx, w);
      OneAcceptsNothing(wf, names[|names| - 1], ctx, w);
    }
  }

  lemma OneAcceptsNothing(wf: Workflow, name: string, ctx: Ctx, w: World)
    ensures AcceptsNothing(CompensateOne(wf, name, ctx, w))
  {
  }

  lemma AcceptedIsStored(reg: Registry, db: Db, r: RunId, signal: string, payload: Value)
    requires RegistryOk(reg) && DbOk(reg, db) && SignalTarget(db, r, signal).Some?
    ensures var after, name := Signal(db, r, signal, payload), SignalTarget(db, r, signal).value;
      r in after.runs && name in after.runs[r].state.results && after.runs[r].state.results[name] == payload
  {
    var run := db.runs[r];
    SignalKeepsResults(reg[run.workflow].steps, run, r, CompletedRows(db.journal, r), signal, payload);
    ApplyMoveRuns(db, r, SignalMove(run, r, SignalTarget(db, r, signal).value, payload));
  }

  /** A payload accepted in this very event is stored by it. */
  lemma NewPayloadStored(reg: Registry, db: Db, event: Event, r: RunId, i: nat)
    requires RegistryOk(reg) && DbOk(reg, db)
    requires |db.log| <= i < |Next(reg, db, event).log|
    requires Next(reg, db, event).log[i].SignalAccepted? && Next(reg, db, event).log[i].runId == r
    ensures var after := Next(reg, db, event);
      && r in db.runs && r in after.runs && after.log[i].step in after.runs[r].state.results
      && after.runs[r].state.results[after.log[i].step] == after.log[i].payload
  {
    DbOkKnown(reg, db);
    AcceptedBy(reg, db, event, r, i);
    AcceptedIsStored(reg, db, r, event.signal, event.payload);
  }

  /** A payload accepted earlier stays stored. */
  lemma OldPayloadsStored(reg: Registry, db: Db, event: Event, r: RunId)
    requires RegistryOk(reg) && DbOk(reg, db) && r in db.runs && r in Next(reg, db, event).runs
    requires PayloadsStored(db.log, r, db.runs[r])
    ensures PayloadsStored(db.log, r, Next(reg, db, event).runs[r])
  {
    DbOkKnown(reg, db);
    var change := NextChange(reg, db, event, r);
    ChangeKeepsResults(reg, db, r, Next(reg, db, event).runs[r], change);
  }

  lemma NextPayloadsStored(reg: Registry, db: Db, event: Event, r: RunId)
    requires RegistryOk(reg) && DbOk(reg, db) && r in Next(reg, db, event).runs
    requires PayloadsStored(db.log, r, Next(reg, db, event).runs[r])
    ensures PayloadsStored(Next(reg, db, event).log, r, Next(reg, db, event).runs[r])
  {
    var after := Next(reg, db, event);
    LogGrows(reg, db, event);
    forall i | 0 <= i < |after.log| && after.log[i].SignalAccepted? && after.log[i].runId == r
      ensures after.log[i].step in after.runs[r].state.results
        && after.runs[r].state.results[after.log[i].step] == after.log[i].payload
    {
      if i < |db.log| {
        assert db.log[i] == after.log[i];
      } else {
        NewPayloadStored(reg, db, event, r, i);
      }
    }
  }

  lemma NextNoneAccepted(reg: Registry, db: Db, event: Event, r: RunId)
    requires RegistryOk(reg) && DbOk(reg, db) && r !in Next(reg, db, event).runs
    requires NoneAccepted(db.log, r)
    ensures NoneAccepted(Next(reg, db, event).log, r)
  {
    var after := Next(reg, db, event);
    LogGrows(reg, db, event);
    forall i | 0 <= i < |after.log| && after.log[i].SignalAccepted?
      ensures after.log[i].runId != r
    {
      if i < |db.log| {
        assert db.log[i] == after.log[i];
      } else if after.log[i].runId == r {
        NewPayloadStored(reg, db, event, r, i);
      }
    }
  }

  lemma NextPayloads(reg: Registry, db: Db, event: Event, r: RunId)
    requires RegistryOk(reg) && DbOk(reg, db)
    requires r in db.runs ==> PayloadsStored(db.log, r, db.runs[r])
    requires r !in db.runs ==> NoneAccepted(db.log, r)
    requires r in db.runs ==> r in Next(reg, db, event).runs
    ensures r in Next(reg, db, event).runs ==> PayloadsStored(Next(reg, db, event).log, r, Next(reg, db, event).runs[r])
    ensures r !in Next(reg, db, event).runs ==> NoneAccepted(Next(reg, db, event).log, r)
  {
    if r in Next(reg, db, event).runs {
      if r in db.runs {
        OldPayloadsStored(reg, db, event, r);
      }
      NextPayloadsStored(reg, db, event, r);
    } else {
      NextNoneAccepted(reg, db, event, r);
    }
  }

  lemma {:induction false} ReachablePayloads(reg: Registry, events: seq<Event>, r: RunId)
    requires RegistryOk(reg)
    ensures var db := Exec(reg, events);
      && (r in db.runs ==> PayloadsStored(db.log, r, db.runs[r]))
      && (r !in db.runs ==> NoneAccepted(db.log, r))
  {
    if events != [] {
      var init := events[..|events| - 1];
      ReachablePayloads(reg, init, r);
      ReachableOk(reg, init);
      if r in Exec(reg, init).runs {
        NextLater(reg, Exec(reg, init), events[|events| - 1], r);
      }
      NextPayloads(reg, Exec(reg, init), events[|events| - 1], r);
    }
  }

  function Payloads(run: Run): string -> Value {
    (name: string) => if name in run.state.results then run.state.results[name] else Null
  }

  /** The payloads a run accepted never conflict: its own results say what each one was. */
  lemma PayloadsAgree(reg: Registry, events: seq<Event>, r: RunId)
    requires RegistryOk(reg) && r in Exec(reg, events).runs
    ensures SignalsAgree(Exec(reg, events).log, r, Payloads(Exec(reg, events).runs[r]))
  {
    ReachablePayloads(reg, events, r);
  }
}
