/** What one delivery does at each kind of node, said of the callbacks and the tables alone. */
module DurableNodeLaws {
  import opened Prelude
  import opened DurableTypes
  import opened DurableSpec

  // ----- What a handler node answers ----------------------------------------------------------------

  ghost predicate RouteAnswers(node: Node, ctx: Ctx, w: World, answer: Result<Value, string>)
    requires node.Route?
  {
    match node.select(ctx, w)
    case Err(error) => answer == Err(error)
    case Ok(key) =>
      && (NoSuchBranch(node.branches, key) ==> answer == Err(UnknownBranchError(node.name, key, node.branches)))
      && (forall i: nat :: LeadsTo(node.branches, key, i) ==>
            match node.branches[i].1(ctx, w)
            case Err(error) => answer == Err(error)
            case Ok(value) => answer == Ok(Record(map["branch" := Str(key), "result" := value])))
  }

  ghost predicate ParallelAnswers(branches: seq<(string, Handler)>, ctx: Ctx, w: World, answer: Result<Value, string>) {
    match answer
    case Err(error) => exists i :: 0 <= i < |branches| && branches[i].1(ctx, w) == Err(error)
    case Ok(value) =>
      && (forall i :: 0 <= i < |branches| ==> branches[i].1(ctx, w).Ok?)
      && value.Record?
      && (forall key :: key in value.fields <==> !NoSuchBranch(branches, key))
      && (forall key, i: nat :: LeadsTo(branches, key, i) ==>
            key in value.fields && branches[i].1(ctx, w) == Ok(value.fields[key]))
  }

  ghost predicate Answers(node: Node, ctx: Ctx, w: World, answer: Result<Value, string>)
    requires node.Step? || node.Parallel? || node.Route?
  {
    match node
    case Step(_, handler, _, _, _) => answer == handler(ctx, w)
    case Parallel(_, branches, _, _) => ParallelAnswers(branches, ctx, w, answer)
    case Route(_, _, _, _, _) => RouteAnswers(node, ctx, w, answer)
  }

  lemma {:induction false} RejectionsAreReal(branches: seq<(string, Handler)>, ctx: Ctx, w: World)
    ensures forall e :: e in Rejections(branches, ctx, w) ==>
      exists i :: 0 <= i < |branches| && branches[i].1(ctx, w) == Err(e)
    ensures Rejections(branches, ctx, w) == [] ==> forall i :: 0 <= i < |branches| ==> branches[i].1(ctx, w).Ok?
  {
    if branches != [] {
      var init, last := branches[..|branches| - 1], |branches| - 1;
      RejectionsAreReal(init, ctx, w);
      forall e | e in Rejections(branches, ctx, w)
        ensures exists i :: 0 <= i < |branches| && branches[i].1(ctx, w) == Err(e)
      {
        if e in Rejections(init, ctx, w) {
          var i :| 0 <= i < |init| && init[i].1(ctx, w) == Err(e);
          assert branches[i].1(ctx, w) == Err(e);
        } else {
          assert branches[last].1(ctx, w) == Err(e);
        }
      }
    }
  }

  lemma {:induction false} ResultsAreReal(branches: seq<(string, Handler)>, ctx: Ctx, w: World, key: string)
    requires forall i :: 0 <= i < |branches| ==> branches[i].1(ctx, w).Ok?
    ensures key in BranchResults(branches, ctx, w) <==> !NoSuchBranch(branches, key)
    ensures forall i: nat :: LeadsTo(branches, key, i) ==>
      branches[i].1(ctx, w) == Ok(BranchResults(branches, ctx, w)[key])
  {
    if branches != [] {
      var init, last := branches[..|branches| - 1], |branches| - 1;
      ResultsAreReal(init, ctx, w, key);
      assert NoSuchBranch(branches, key) <==> NoSuchBranch(init, key) && branches[last].0 != key;
      forall i: nat | LeadsTo(branches, key, i)
        ensures branches[i].1(ctx, w) == Ok(BranchResults(branches, ctx, w)[key])
      {
        if i < last {
          assert LeadsTo(init, key, i);
        }
      }
    }
  }

  lemma ParallelIs(branches: seq<(string, Handler)>, ctx: Ctx, w: World)
    ensures ParallelAnswers(branches, ctx, w,
      match AllBranches(branches, ctx, w) case Ok(results) => Ok(Record(results)) case Err(error) => Err(error))
  {
    RejectionsAreReal(branches, ctx, w);
    var rejections := Rejections(branches, ctx, w);
    if rejections == [] {
      forall key
        ensures key in BranchResults(branches, ctx, w) <==> !NoSuchBranch(branches, key)
        ensures forall i: nat :: LeadsTo(branches, key, i) ==>
          branches[i].1(ctx, w) == Ok(BranchResults(branches, ctx, w)[key])
      {
        ResultsAreReal(branches, ctx, w, key);
      }
    } else {
      assert rejections[w.nonce % |rejections|] in rejections;
    }
  }

  lemma HandlerIs(node: Node, ctx: Ctx, w: World)
    requires node.Step? || node.Parallel? || node.Route?
    ensures Answers(node, ctx, w, RunHandler(node, ctx, w))
  {
    match node {
      case Step(_, _, _, _, _) =>
      case Parallel(_, branches, _, _) => ParallelIs(branches, ctx, w);
      case Route(_, select, branches, _, _) =>
        if select(ctx, w).Ok? {
          BranchFound(branches, select(ctx, w).value);
        }
    }
  }

  // ----- One delivery --------------------------------------------------------------------------------------

  /** The run stands at a node that is not journaled as completed. */
  ghost predicate StandsAt(wf: Workflow, db: Db, r: RunId, node: Node) {
    && r in db.runs && db.runs[r].currentStep < |wf.steps| && wf.steps[db.runs[r].currentStep] == node
    && NotJournaled(db.journal, r, node.name)
  }

  /** No completed row of the run under this name. */
  predicate NotJournaled(journal: seq<JournalRow>, r: RunId, name: string) {
    forall i :: 0 <= i < |journal| && journal[i].runId == r && journal[i].stepName == name ==>
      journal[i].status != RowCompleted
  }

  /** This attempt's number: one more than those that failed. */
  function ThisAttempt(run: Run, node: Node): nat {
    if node.name in run.state.stepAttempts then run.state.stepAttempts[node.name] + 1 else 1
  }

  /** What the callbacks are given. */
  function Given(db: Db, r: RunId, node: Node): Ctx
    requires r in db.runs
  {
    Ctx(db.runs[r].input, db.runs[r].state.results, r, ThisAttempt(db.runs[r], node))
  }

  /** The state behind a node: its value stored, and its own bookkeeping gone. */
  function StateBehind(st: State, node: Node, value: Value): State {
    State(
      st.results[node.name := value],
      st.stepAttempts - {node.name},
      st.awaitingSignals,
      if node.Loop? then st.loopState - {node.name} else st.loopState,
      if node.ChildWorkflow? then st.childRunIds - {node.name} else st.childRunIds,
      st.sleepMarks - {node.name})
  }

  /** The node is done with a value: row, result and cursor, and the next advance due at once. */
  predicate DoneWith(run: Run, r: RunId, node: Node, value: Value, move: Move) {
    && move.run == run.(
         status := Running, currentStep := run.currentStep + 1, state := StateBehind(run.state, node, value))
    && move.rows == [JournalRow(r, node.name, RowCompleted, value, None, ThisAttempt(run, node))]
    && move.wake == WakeAdvance(0.0)
  }

  /** The node has failed for good: a failed row with the error, and the rollback is due. */
  predicate FailedWith(run: Run, r: RunId, node: Node, error: string, move: Move) {
    && move.run == run.(status := Compensating, error := Some(error))
    && move.rows == [JournalRow(r, node.name, RowFailed, Null, Some(error), ThisAttempt(run, node))]
    && move.wake == WakeCompensate
  }

  /** The attempt is counted and the next one due after the node's backoff, never negative. */
  predicate RetriedLater(run: Run, node: Node, backoff: real, move: Move) {
    && var attempts := run.state.stepAttempts[node.name := ThisAttempt(run, node)];
    && move.run == run.(state := run.state.(stepAttempts := attempts))
    && move.rows == []
    && move.wake == WakeAdvance(if backoff < 0.0 then 0.0 else backoff)
  }

  /** A failed attempt is retried if there are attempts left. */
  predicate FailedAttempt(run: Run, r: RunId, node: Node, w: World, error: string, move: Move)
    requires node.Step? || node.Parallel? || node.Route? || node.Loop?
  {
    if ThisAttempt(run, node) < node.maxAttempts
    then RetriedLater(run, node, node.backoff(ThisAttempt(run, node), w), move)
    else FailedWith(run, r, node, error, move)
  }

  /** Parked in a state, to be woken after a delay or, without one, by a signal. */
  predicate ParkedFor(run: Run, state: State, wake: Wake, move: Move) {
    move.run == run.(status := Waiting, state := state) && move.wake == wake
  }

  lemma {:induction false} NotFound(journal: seq<JournalRow>, r: RunId, name: string)
    requires NotJournaled(journal, r, name)
    ensures Lookup(journal, r, name).Some? ==> Lookup(journal, r, name).value.status != RowCompleted
  {
    if journal != [] && !(journal[0].runId == r && journal[0].stepName == name) {
      forall i | 0 <= i < |journal[1..]|
        ensures journal[1..][i] == journal[i + 1]
      {
      }
      NotFound(journal[1..], r, name);
    }
  }

  /** Row `i` is the run's first under a name. */
  predicate FirstRow(journal: seq<JournalRow>, r: RunId, name: string, i: nat) {
    && i < |journal| && journal[i].runId == r && journal[i].stepName == name
    && forall j :: 0 <= j < i ==> journal[j].runId != r || journal[j].stepName != name
  }

  lemma {:induction false} FirstIsFound(journal: seq<JournalRow>, r: RunId, name: string, i: nat)
    requires FirstRow(journal, r, name, i)
    ensures Lookup(journal, r, name) == Some(journal[i])
  {
    if i > 0 {
      assert journal[0].runId != r || journal[0].stepName != name;
      FirstIsFound(journal[1..], r, name, i - 1);
    }
  }

  lemma RunsItsNode(wf: Workflow, db: Db, r: RunId, node: Node, w: World)
    requires StandsAt(wf, db, r, node)
    ensures var nr := RunNode(db, node, Given(db, r, node), db.runs[r].state, ThisAttempt(db.runs[r], node), w);
      AdvanceMove(wf, db, r, w) == ApplyOutcome(db.runs[r], r, node, nr,
        if nr.spawn.Some? then [ChildStarted(r, node.name, db.nextRun)] else [])
  {
    NotFound(db.journal, r, node.name);
  }

  /** A step, a parallel or a route node: its handler's answer is stored, retried or fatal. */
  lemma HandlerNodeLaw(wf: Workflow, db: Db, r: RunId, node: Node, w: World) returns (answer: Result<Value, string>)
    requires StandsAt(wf, db, r, node) && (node.Step? || node.Parallel? || node.Route?)
    ensures Answers(node, Given(db, r, node), w, answer)
    ensures var move := AdvanceMove(wf, db, r, w);
      && move.spawn == None && move.effects == []
      && match answer
         case Ok(value) => DoneWith(db.runs[r], r, node, value, move)
         case Err(error) => FailedAttempt(db.runs[r], r, node, w, error, move)
  {
    RunsItsNode(wf, db, r, node, w);
    answer := RunHandler(node, Given(db, r, node), w);
    HandlerIs(node, Given(db, r, node), w);
  }

  /** Whole seconds to sleep. */
  function Seconds(node: Node, ctx: Ctx, w: World): nat
    requires node.Sleep?
  {
    if node.delay(ctx, w) < 0.0 then 0 else node.delay(ctx, w).Floor
  }

  /** A sleep is marked with the clock on its first advance and due after its seconds; it passes
      once they have gone by since, and is parked again for the rest, at least a second. */
  lemma SleepLaw(wf: Workflow, db: Db, r: RunId, node: Node, w: World)
    requires StandsAt(wf, db, r, node) && node.Sleep?
    ensures var run, move := db.runs[r], AdvanceMove(wf, db, r, w);
      var seconds := Seconds(node, Given(db, r, node), w) as real;
      && move.spawn == None && move.effects == []
      && if node.name !in run.state.sleepMarks then
           && move.rows == []
           && var marked := run.state.(sleepMarks := run.state.sleepMarks[node.name := w.nowMs]);
             ParkedFor(run, marked, WakeAdvance(seconds), move)
         else
           var elapsed := (w.nowMs - run.state.sleepMarks[node.name]) as real / 1000.0;
           if elapsed >= seconds then
             DoneWith(run, r, node, Record(map["sleptSec" := Num(seconds)]), move)
           else
             && move.rows == []
             && var rest := if seconds - elapsed < 1.0 then 1.0 else seconds - elapsed;
               ParkedFor(run, run.state, WakeAdvance(rest), move)
  {
    RunsItsNode(wf, db, r, node, w);
    assert SleepSeconds(node, Given(db, r, node), w) == Seconds(node, Given(db, r, node), w);
  }

  /** The node awaits the signal, in its own place if it has one and else last; the others await
      what they did. */
  predicate NowAwaits(before: seq<(string, string)>, name: string, signal: string, after: seq<(string, string)>) {
    && ((forall i :: 0 <= i < |before| ==> before[i].0 != name) ==> after == before + [(name, signal)])
    && (forall i: nat :: i < |before| && before[i].0 == name && (forall j :: 0 <= j < i ==> before[j].0 != name) ==>
          after == before[i := (name, signal)])
  }

  lemma {:induction false} SetInPlace(before: seq<(string, string)>, name: string, signal: string, i: nat)
    requires i < |before| && before[i].0 == name && forall j :: 0 <= j < i ==> before[j].0 != name
    ensures SetAwaiting(before, name, signal) == before[i := (name, signal)]
  {
    if i > 0 {
      assert before[0].0 != name;
      SetInPlace(before[1..], name, signal, i - 1);
    }
  }

  lemma {:induction false} SetLast(before: seq<(string, string)>, name: string, signal: string)
    requires forall i :: 0 <= i < |before| ==> before[i].0 != name
    ensures SetAwaiting(before, name, signal) == before + [(name, signal)]
  {
    if before != [] {
      assert before[0].0 != name;
      SetLast(before[1..], name, signal);
    }
  }

  lemma AwaitingIsSet(before: seq<(string, string)>, name: string, signal: string)
    ensures NowAwaits(before, name, signal, SetAwaiting(before, name, signal))
  {
    forall i: nat | i < |before| && before[i].0 == name && forall j :: 0 <= j < i ==> before[j].0 != name
      ensures SetAwaiting(before, name, signal) == before[i := (name, signal)]
    {
      SetInPlace(before, name, signal, i);
    }
    if forall i :: 0 <= i < |before| ==> before[i].0 != name {
      SetLast(before, name, signal);
    }
  }

  /** A wait awaits the signal its callback names, and has no job. */
  lemma WaitLaw(wf: Workflow, db: Db, r: RunId, node: Node, w: World)
    requires StandsAt(wf, db, r, node) && node.WaitForSignal?
    ensures var run, move := db.runs[r], AdvanceMove(wf, db, r, w);
      && move.spawn == None && move.effects == [] && move.rows == []
      && ParkedFor(run, run.state.(awaitingSignals := move.run.state.awaitingSignals), NoWake, move)
      && NowAwaits(run.state.awaitingSignals, node.name, node.signalName(Given(db, r, node), w),
           move.run.state.awaitingSignals)
  {
    RunsItsNode(wf, db, r, node, w);
    AwaitingIsSet(db.runs[r].state.awaitingSignals, node.name, node.signalName(Given(db, r, node), w));
  }

  /** The iterations a run has behind it in a loop, and the loop's values so far. */
  function Stored(run: Run, node: Node): Slot {
    if node.name in run.state.loopState then run.state.loopState[node.name] else Slot(0, [])
  }

  /** The slot a loop goes on with: the stored one, or the one behind it if the stored one's
      iteration is journaled as completed. */
  ghost predicate GoesOnWith(journal: seq<JournalRow>, r: RunId, run: Run, node: Node, slot: Slot) {
    var stored := Stored(run, node);
    var key := IterKey(node.name, stored.iteration);
    && (NotJournaled(journal, r, key) ==> slot == stored)
    && (forall i: nat :: FirstRow(journal, r, key, i) && journal[i].status == RowCompleted ==>
          slot == Slot(stored.iteration + 1, stored.results + [journal[i].result]))
  }

  /** The run with the slot written back. */
  function WithSlot(run: Run, node: Node, slot: Slot): Run {
    run.(state := run.state.(loopState := run.state.loopState[node.name := slot]))
  }

  lemma SlotIs(journal: seq<JournalRow>, r: RunId, run: Run, node: Node)
    requires node.Loop?
    ensures GoesOnWith(journal, r, run, node, ReplaySlot(journal, r, node, run.state))
  {
    var key := IterKey(node.name, Stored(run, node).iteration);
    if NotJournaled(journal, r, key) {
      NotFound(journal, r, key);
    }
    forall i: nat | FirstRow(journal, r, key, i)
      ensures Lookup(journal, r, key) == Some(journal[i])
    {
      FirstIsFound(journal, r, key, i);
    }
  }

  /** One more iteration, and the next advance due at once. */
  predicate IterationDone(run: Run, r: RunId, node: Node, slot: Slot, value: Value, move: Move) {
    var key := IterKey(node.name, Stored(run, node).iteration);
    var next := WithSlot(run, node, Slot(slot.iteration + 1, slot.results + [value]));
    && ParkedFor(run, next.state, WakeAdvance(0.0), move)
    && move.rows == [JournalRow(r, key, RowCompleted, value, None, ThisAttempt(run, node))]
  }

  /** One turn of a loop that goes on with a slot: its bound is looked at before its condition, and
      the body runs once. */
  predicate TurnOf(run: Run, r: RunId, node: Node, slot: Slot, w: World, move: Move)
    requires node.Loop?
  {
    var ctx, at := Ctx(run.input, run.state.results, r, ThisAttempt(run, node)), WithSlot(run, node, slot);
    && move.spawn == None && move.effects == []
    && if slot.iteration >= node.maxIterations then
         FailedWith(at, r, node, LoopBoundError(node.maxIterations), move)
       else
         match node.condition(ctx, slot.iteration, w)
         case Err(error) => FailedWith(at, r, node, error, move)
         case Ok(false) => DoneWith(at, r, node, List(slot.results), move)
         case Ok(true) =>
           match node.body(ctx, slot.iteration, w)
           case Err(error) => FailedAttempt(at, r, node, w, error, move)
           case Ok(value) => IterationDone(run, r, node, slot, value, move)
  }

  function LoopMove(journal: seq<JournalRow>, run: Run, r: RunId, node: Node, w: World): Move
    requires node.Loop?
  {
    var attempt := ThisAttempt(run, node);
    var ctx := Ctx(run.input, run.state.results, r, attempt);
    ApplyOutcome(run, r, node, RunLoop(journal, node, ctx, run.state, attempt, w), [])
  }

  /** The condition says to go on. */
  predicate BodyDue(journal: seq<JournalRow>, run: Run, r: RunId, node: Node, w: World)
    requires node.Loop?
  {
    var slot := ReplaySlot(journal, r, node, run.state);
    && slot.iteration < node.maxIterations
    && node.condition(Ctx(run.input, run.state.results, r, ThisAttempt(run, node)), slot.iteration, w) == Ok(true)
  }

  lemma TurnEnds(journal: seq<JournalRow>, run: Run, r: RunId, node: Node, w: World)
    requires node.Loop?
    requires !BodyDue(journal, run, r, node, w)
    ensures TurnOf(run, r, node, ReplaySlot(journal, r, node, run.state), w, LoopMove(journal, run, r, node, w))
  {
  }

  lemma TurnRuns(journal: seq<JournalRow>, run: Run, r: RunId, node: Node, w: World)
    requires node.Loop?
    requires BodyDue(journal, run, r, node, w)
    ensures TurnOf(run, r, node, ReplaySlot(journal, r, node, run.state), w, LoopMove(journal, run, r, node, w))
  {
  }

  lemma TurnIs(journal: seq<JournalRow>, run: Run, r: RunId, node: Node, w: World)
    requires node.Loop?
    ensures TurnOf(run, r, node, ReplaySlot(journal, r, node, run.state), w, LoopMove(journal, run, r, node, w))
  {
    if BodyDue(journal, run, r, node, w) {
      TurnRuns(journal, run, r, node, w);
    } else {
      TurnEnds(journal, run, r, node, w);
    }
  }

  /** A loop takes a journaled iteration over and then makes one turn; the value of its body is
      added to the slot and journaled under the key of the iteration that was stored. */
  lemma LoopLaw(wf: Workflow, db: Db, r: RunId, node: Node, w: World) returns (slot: Slot)
    requires StandsAt(wf, db, r, node) && node.Loop?
    ensures GoesOnWith(db.journal, r, db.runs[r], node, slot)
    ensures TurnOf(db.runs[r], r, node, slot, w, AdvanceMove(wf, db, r, w))
  {
    RunsItsNode(wf, db, r, node, w);
    SlotIs(db.journal, r, db.runs[r], node);
    slot := ReplaySlot(db.journal, r, node, db.runs[r].state);
    TurnIs(db.journal, db.runs[r], r, node, w);
  }

  /** A child node without a child starts one: a new pending run of the workflow and with the
      input its callback asks for, whose advance is due at once. The parent remembers the id and
      is woken after the polling interval. */
  lemma ChildStartLaw(reg: Registry, db: Db, r: RunId, node: Node, w: World)
    requires r in db.runs && !Terminal(db.runs[r].status) && db.runs[r].workflow in reg && db.nextRun !in db.runs
    requires StandsAt(reg[db.runs[r].workflow], db, r, node) && node.ChildWorkflow?
    requires node.name !in db.runs[r].state.childRunIds
    requires node.start(Given(db, r, node), w).Ok? && node.start(Given(db, r, node), w).value.workflow in reg
    ensures var spec, child := node.start(Given(db, r, node), w).value, db.nextRun;
      var after := Advance(reg, db, r, w);
      && after.runs.Keys == db.runs.Keys + {child}
      && after.runs[child] == Run(spec.workflow, spec.input, DurableTypes.Pending, EMPTY_STATE, 0, None, None)
      && after.runs[r] == db.runs[r].(
           status := Waiting,
           state := db.runs[r].state.(childRunIds := db.runs[r].state.childRunIds[node.name := child]))
      && var polling := AdvanceJob(r, node.pollIntervalSec);
      && after.jobs == db.jobs[db.nextJob := AdvanceJob(child, 0.0)][db.nextJob + 1 := polling]
      && after.journal == db.journal && after.log == db.log + [ChildStarted(r, node.name, child)]
  {
    RunsItsNode(reg[db.runs[r].workflow], db, r, node, w);
  }

  /** A child node whose callback throws fails at once. */
  lemma ChildThrowsLaw(wf: Workflow, db: Db, r: RunId, node: Node, w: World)
    requires StandsAt(wf, db, r, node) && node.ChildWorkflow? && node.name !in db.runs[r].state.childRunIds
    requires node.start(Given(db, r, node), w).Err?
    ensures var move := AdvanceMove(wf, db, r, w);
      move.spawn == None && FailedWith(db.runs[r], r, node, node.start(Given(db, r, node), w).error, move)
  {
    RunsItsNode(wf, db, r, node, w);
  }

  /** A child node with a child takes its result, fails with its error, or polls on. */
  lemma ChildPollLaw(wf: Workflow, db: Db, r: RunId, node: Node, w: World)
    requires StandsAt(wf, db, r, node) && node.ChildWorkflow? && node.name in db.runs[r].state.childRunIds
    ensures var run, move, child := db.runs[r], AdvanceMove(wf, db, r, w), db.runs[r].state.childRunIds[node.name];
      && move.spawn == None && move.effects == []
      && if child !in db.runs then FailedWith(run, r, node, ChildGoneError(child), move)
         else if db.runs[child].status == Completed then
           DoneWith(run, r, node,
             if db.runs[child].result.Some? then Record(db.runs[child].result.value) else Null, move)
         else if db.runs[child].status == Failed then
           FailedWith(run, r, node,
             if db.runs[child].error.Some? then db.runs[child].error.value else CHILD_FALLBACK_ERROR, move)
         else ParkedFor(run, run.state, WakeAdvance(node.pollIntervalSec), move) && move.rows == []
  {
    RunsItsNode(wf, db, r, node, w);
  }

  // ----- Past nodes, and past the last one ------------------------------------------------------------------

  /** A node found completed in the journal is not run again: its journaled value is stored and
      the cursor passes it. */
  lemma ReplayLaw(wf: Workflow, db: Db, r: RunId, i: nat, w: World)
    requires r in db.runs && db.runs[r].currentStep < |wf.steps|
    requires FirstRow(db.journal, r, wf.steps[db.runs[r].currentStep].name, i) && db.journal[i].status == RowCompleted
    ensures var run, move := db.runs[r], AdvanceMove(wf, db, r, w);
      var name := wf.steps[run.currentStep].name;
      && move.spawn == None && move.effects == [] && move.rows == [] && move.wake == WakeAdvance(0.0)
      && move.run == run.(
           status := Running, currentStep := run.currentStep + 1,
           state := run.state.(results := run.state.results[name := db.journal[i].result]))
  {
    FirstIsFound(db.journal, r, wf.steps[db.runs[r].currentStep].name, i);
  }

  /** Past the last node the run is completed with its results, and no job follows. */
  lemma EndLaw(wf: Workflow, db: Db, r: RunId, w: World)
    requires r in db.runs && db.runs[r].currentStep >= |wf.steps|
    ensures var run, move := db.runs[r], AdvanceMove(wf, db, r, w);
      && move.spawn == None && move.effects == [] && move.rows == [] && move.wake == NoWake
      && move.run == run.(
           status := Completed, result := Some(run.state.results), state := EMPTY_STATE.(results := run.state.results))
  {
  }

  // ----- Starts and signals ---------------------------------------------------------------------------------------

  /** A start adds one pending run with its workflow and input, and its first advance, due at once. */
  lemma StartLaw(reg: Registry, db: Db, workflow: string, input: Value)
    ensures var after := Start(reg, db, workflow, input);
      if workflow !in reg then after == db
      else
        && after.runs == db.runs[db.nextRun := Run(workflow, input, DurableTypes.Pending, EMPTY_STATE, 0, None, None)]
        && after.jobs == db.jobs[db.nextJob := AdvanceJob(db.nextRun, 0.0)]
        && after.nextRun == db.nextRun + 1 && after.nextJob == db.nextJob + 1
        && after.journal == db.journal && after.log == db.log
  {
  }

  /** Entry `i` is the first that awaits a signal. */
  predicate Awaits(awaiting: seq<(string, string)>, signal: string, i: nat) {
    i < |awaiting| && awaiting[i].1 == signal && forall j :: 0 <= j < i ==> awaiting[j].1 != signal
  }

  lemma {:induction false} AwaitedIsFound(awaiting: seq<(string, string)>, signal: string, i: nat)
    requires Awaits(awaiting, signal, i)
    ensures FindAwaiting(awaiting, signal) == Some(awaiting[i].0)
  {
    if i > 0 {
      assert awaiting[0].1 != signal;
      AwaitedIsFound(awaiting[1..], signal, i - 1);
    }
  }

  lemma {:induction false} UnawaitedIsNotFound(awaiting: seq<(string, string)>, signal: string)
    requires forall i :: 0 <= i < |awaiting| ==> awaiting[i].1 != signal
    ensures FindAwaiting(awaiting, signal) == None
  {
    if awaiting != [] {
      UnawaitedIsNotFound(awaiting[1..], signal);
    }
  }

  /** A signal that a waiting run awaits is journaled and stored as its node's result, the cursor
      passes the node, and the next advance is due at once. */
  lemma SignalAcceptedLaw(db: Db, r: RunId, signal: string, payload: Value, i: nat)
    requires r in db.runs && db.runs[r].status == Waiting && Awaits(db.runs[r].state.awaitingSignals, signal, i)
    ensures var run, after := db.runs[r], Signal(db, r, signal, payload);
      var name := run.state.awaitingSignals[i].0;
      && after.runs.Keys == db.runs.Keys && (forall q :: q in db.runs && q != r ==> after.runs[q] == db.runs[q])
      && var state := run.state.(
           results := run.state.results[name := payload], awaitingSignals := after.runs[r].state.awaitingSignals);
      && after.runs[r] == run.(status := Running, currentStep := run.currentStep + 1, state := state)
      && ((forall j :: 0 <= j < i ==> run.state.awaitingSignals[j].0 != name) ==>
            state.awaitingSignals == run.state.awaitingSignals[..i] + run.state.awaitingSignals[i + 1..])
      && after.journal == db.journal + [JournalRow(r, name, RowCompleted, payload, None, 1)]
      && after.jobs == db.jobs[db.nextJob := AdvanceJob(r, 0.0)]
      && after.log == db.log + [SignalAccepted(r, name, payload)]
  {
    var awaiting := db.runs[r].state.awaitingSignals;
    AwaitedIsFound(awaiting, signal, i);
    if forall j :: 0 <= j < i ==> awaiting[j].0 != awaiting[i].0 {
      EntryDropped(awaiting, i);
    }
  }

  lemma {:induction false} EntryDropped(awaiting: seq<(string, string)>, i: nat)
    requires i < |awaiting| && forall j :: 0 <= j < i ==> awaiting[j].0 != awaiting[i].0
    ensures DropAwaiting(awaiting, awaiting[i].0) == awaiting[..i] + awaiting[i + 1..]
  {
    if i > 0 {
      assert awaiting[0].0 != awaiting[i].0;
      EntryDropped(awaiting[1..], i - 1);
    }
  }

  // ----- Refusals -------------------------------------------------------------------------------------------------

  /** An advance throws, and leaves the tables as they were, if the run is unknown, or unfinished
      and its workflow or that of the child it would start is not registered; of a finished run it
      changes nothing, and of any other it makes the move. */
  lemma AdvanceLaw(reg: Registry, db: Db, r: RunId, w: World)
    ensures var error, after := AdvanceError(reg, db, r, w), Advance(reg, db, r, w);
      && (error.Some? ==> after == db)
      && if r !in db.runs then error == Some(RunNotFound(r))
         else if db.runs[r].status in {Completed, Failed} then error == None && after == db
         else if db.runs[r].workflow !in reg then error == Some(NotRegistered(db.runs[r].workflow))
         else
           match AdvanceMove(reg[db.runs[r].workflow], db, r, w).spawn
           case Some(child) =>
             if child.workflow !in reg then error == Some(NotRegistered(child.workflow)) else error == None
           case None =>
             error == None && Written(db, r, AdvanceMove(reg[db.runs[r].workflow], db, r, w), after)
  {
  }

  /** A rollback throws if the run is unknown, or is to be rolled back and its workflow is not
      registered; of a run that is not to be rolled back it changes nothing. */
  lemma CompensateLaw(reg: Registry, db: Db, r: RunId, w: World)
    ensures var error, after := CompensateError(reg, db, r), Compensate(reg, db, r, w);
      && (error.Some? ==> after == db)
      && if r !in db.runs then error == Some(RunNotFound(r))
         else if db.runs[r].status != Compensating then error == None && after == db
         else if db.runs[r].workflow !in reg then error == Some(NotRegistered(db.runs[r].workflow))
         else error == None && Written(db, r, CompensateMove(reg[db.runs[r].workflow], db, r, w), after)
  {
    if r in db.runs && db.runs[r].workflow in reg {
      RollbackLaw(reg[db.runs[r].workflow], db, r, w);
    }
  }

  /** A move without a child, written to the tables: the run's row, the rows and effects behind the
      others, and one job if one is due. */
  predicate Written(db: Db, r: RunId, move: Move, after: Db) {
    && after.runs == db.runs[r := move.run] && after.journal == db.journal + move.rows
    && after.log == db.log + move.effects && after.nextRun == db.nextRun
    && match move.wake
       case NoWake => after.jobs == db.jobs
       case WakeAdvance(delaySec) => after.jobs == db.jobs[db.nextJob := AdvanceJob(r, delaySec)]
       case WakeCompensate => after.jobs == db.jobs[db.nextJob := CompensateJob(r)]
  }

  /** Any other signal changes nothing. */
  lemma SignalIgnoredLaw(db: Db, r: RunId, signal: string, payload: Value)
    requires r in db.runs && db.runs[r].status == Waiting ==>
      forall i :: 0 <= i < |db.runs[r].state.awaitingSignals| ==> db.runs[r].state.awaitingSignals[i].1 != signal
    ensures Signal(db, r, signal, payload) == db
  {
    if r in db.runs && db.runs[r].status == Waiting {
      UnawaitedIsNotFound(db.runs[r].state.awaitingSignals, signal);
    }
  }

  // ----- Compensators that throw ---------------------------------------------------------------------------------

  /** The answer of the compensator of the node declared last under a name. */
  predicate Undoing(steps: seq<Node>, name: string, i: nat) {
    && i < |steps| && steps[i].name == name && steps[i].Step? && steps[i].compensate.Some?
    && forall j :: i < j < |steps| ==> steps[j].name != name
  }

  /** Call `k` is followed by the record of what it threw, if it threw. */
  predicate CallSettled(wf: Workflow, ctx: Ctx, w: World, effects: seq<Effect>, k: nat)
    requires k < |effects| && effects[k].CompensatorCalled?
  {
    forall i :: 0 <= i < |wf.steps| && Undoing(wf.steps, effects[k].step, i) ==>
      match wf.steps[i].compensate.value(ctx, w)
      case Ok(_) => k + 1 == |effects| || effects[k + 1].CompensatorCalled?
      case Err(error) => k + 1 < |effects| && effects[k + 1] == CompensatorThrew(ctx.runId, effects[k].step, error)
  }

  /** Every recorded throw follows its call at once, and every call of a compensator that throws is
      followed by its record. */
  predicate ThrowsRecorded(wf: Workflow, ctx: Ctx, w: World, effects: seq<Effect>) {
    && (effects != [] ==> effects[0].CompensatorCalled?)
    && (forall k :: 0 < k < |effects| && effects[k].CompensatorThrew? ==>
          effects[k - 1] == CompensatorCalled(ctx.runId, effects[k].step, ctx))
    && (forall k :: 0 <= k < |effects| && effects[k].CompensatorCalled? ==> CallSettled(wf, ctx, w, effects, k))
  }

  lemma {:induction false} NodeFound(steps: seq<Node>, name: string, i: nat)
    requires Undoing(steps, name, i)
    ensures FindNode(steps, name) == Some(steps[i])
  {
    if i < |steps| - 1 {
      assert steps[|steps| - 1].name != name;
      NodeFound(steps[..|steps| - 1], name, i);
    }
  }

  lemma OneRecorded(wf: Workflow, name: string, ctx: Ctx, w: World)
    ensures ThrowsRecorded(wf, ctx, w, CompensateOne(wf, name, ctx, w))
  {
    forall i: nat | Undoing(wf.steps, name, i)
      ensures FindNode(wf.steps, name) == Some(wf.steps[i])
    {
      NodeFound(wf.steps, name, i);
    }
  }

  lemma JoinRecorded(wf: Workflow, ctx: Ctx, w: World, a: seq<Effect>, b: seq<Effect>)
    requires ThrowsRecorded(wf, ctx, w, a) && ThrowsRecorded(wf, ctx, w, b)
    ensures ThrowsRecorded(wf, ctx, w, a + b)
  {
    var both := a + b;
    forall k | 0 <= k < |both| && both[k].CompensatorCalled?
      ensures CallSettled(wf, ctx, w, both, k)
    {
      if k < |a| {
        assert CallSettled(wf, ctx, w, a, k);
      } else {
        assert CallSettled(wf, ctx, w, b, k - |a|);
      }
    }
  }

  lemma {:induction false} AllRecorded(wf: Workflow, names: seq<string>, ctx: Ctx, w: World)
    ensures ThrowsRecorded(wf, ctx, w, CompensateAll(wf, names, ctx, w))
  {
    if names != [] {
      AllRecorded(wf, names[..|names| - 1], ctx, w);
      OneRecorded(wf, names[|names| - 1], ctx, w);
      JoinRecorded(wf, ctx, w, CompensateAll(wf, names[..|names| - 1], ctx, w),
        CompensateOne(wf, names[|names| - 1], ctx, w));
    }
  }

  /** A rollback records exactly the compensators that throw, each right after its call, and ends
      the run as failed. */
  lemma RollbackLaw(wf: Workflow, db: Db, r: RunId, w: World)
    requires r in db.runs
    ensures var run, move := db.runs[r], CompensateMove(wf, db, r, w);
      && move.run == run.(status := Failed) && move.rows == [] && move.wake == NoWake && move.spawn == None
      && ThrowsRecorded(wf, Ctx(run.input, run.state.results, r, 1), w, move.effects)
  {
    var run := db.runs[r];
    AllRecorded(wf, Reverse(CompletedNames(db.journal, r)), Ctx(run.input, run.state.results, r, 1), w);
  }
}
