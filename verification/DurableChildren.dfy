/** Child workflows: each child node starts at most one child, and takes its outcome. */
module DurableChildren {
  import opened Prelude
  import opened DurableTypes
  import opened DurableSpec
  import opened DurableJournal
  import opened DurableRunInvariant
  import opened DurableReachable
  import opened DurableChange
  import opened DurableHistory
  import opened DurableSaga

  type Kid = (string, RunId)

  /** The children a run has started, in order, each with the node that started it. */
  function Kids(log: seq<Effect>, r: RunId): seq<Kid> {
    if log == [] then []
    else
      var last := log[|log| - 1];
      Kids(log[..|log| - 1], r) + (if last.ChildStarted? && last.runId == r then [(last.step, last.child)] else [])
  }

  function KidNames(kids: seq<Kid>): seq<string> {
    seq(|kids|, i requires 0 <= i < |kids| => kids[i].0)
  }

  function ChildNodesBefore(steps: seq<Node>, n: nat): seq<string>
    requires n <= |steps|
  {
    if n == 0 then []
    else ChildNodesBefore(steps, n - 1) + (if steps[n - 1].ChildWorkflow? then [steps[n - 1].name] else [])
  }

  function CurrentKid(steps: seq<Node>, run: Run): seq<string> {
    if run.currentStep < |steps| && steps[run.currentStep].ChildWorkflow?
       && steps[run.currentStep].name in run.state.childRunIds
    then [steps[run.currentStep].name] else []
  }

  /** A child's node either took the child's result, or still holds the child's id; and if
      the run is rolling back at that node, it is because the child failed. */
  predicate KidOk(runs: map<RunId, Run>, run: Run, kid: Kid) {
    && kid.1 in runs
    && (kid.0 in run.state.results ==>
          runs[kid.1].status == Completed && run.state.results[kid.0] == ResultValue(runs[kid.1]))
    && (kid.0 !in run.state.results ==>
          && kid.0 in run.state.childRunIds && run.state.childRunIds[kid.0] == kid.1
          && (run.status in {Compensating, Failed} ==>
                && runs[kid.1].status == Failed
                && run.error == Some(ErrorOr(runs[kid.1], CHILD_FALLBACK_ERROR))))
  }

  ghost predicate KidsOk(steps: seq<Node>, runs: map<RunId, Run>, run: Run, kids: seq<Kid>)
    requires run.currentStep <= |steps|
  {
    && KidNames(kids) == ChildNodesBefore(steps, run.currentStep) + CurrentKid(steps, run)
    && (forall i :: 0 <= i < |kids| ==> KidOk(runs, run, kids[i]))
  }

  // ----- Facts -------------------------------------------------------------------------------------------

  lemma {:induction false} KidsAppend(a: seq<Effect>, b: seq<Effect>, r: RunId)
    ensures Kids(a + b, r) == Kids(a, r) + Kids(b, r)
  {
    if b == [] {
      NilRight(a);
    } else {
      var last := b[|b| - 1];
      assert (a + b)[..|a + b| - 1] == a + b[..|b| - 1];
      KidsAppend(a, b[..|b| - 1], r);
      Assoc(Kids(a, r), Kids(b[..|b| - 1], r),
        if last.ChildStarted? && last.runId == r then [(last.step, last.child)] else []);
    }
  }

  lemma {:induction false} NoKids(log: seq<Effect>, r: RunId)
    requires forall i :: 0 <= i < |log| ==> !log[i].ChildStarted? || log[i].runId != r
    ensures Kids(log, r) == []
  {
    if log != [] {
      NoKids(log[..|log| - 1], r);
    }
  }

  lemma OneKid(effect: Effect, r: RunId)
    requires effect.ChildStarted? && effect.runId == r
    ensures Kids([effect], r) == [(effect.step, effect.child)]
  {
    assert [effect][..0] == [];
  }

  lemma {:induction false} ChildNodesNamed(steps: seq<Node>, n: nat, name: string)
    requires n <= |steps| && name in ChildNodesBefore(steps, n)
    ensures name in NamesBefore(steps, n)
    ensures exists i :: 0 <= i < n && steps[i].ChildWorkflow? && steps[i].name == name
  {
    if !(steps[n - 1].ChildWorkflow? && steps[n - 1].name == name) {
      ChildNodesNamed(steps, n - 1, name);
    }
  }

  lemma {:induction false} ChildNodesListed(steps: seq<Node>, n: nat, i: nat)
    requires i < n <= |steps| && steps[i].ChildWorkflow?
    ensures steps[i].name in ChildNodesBefore(steps, n)
  {
    if i < n - 1 {
      ChildNodesListed(steps, n - 1, i);
    }
  }

  lemma KidNamed(steps: seq<Node>, run: Run, kids: seq<Kid>, i: nat)
    requires run.currentStep <= |steps| && i < |kids|
    requires KidNames(kids) == ChildNodesBefore(steps, run.currentStep) + CurrentKid(steps, run)
    ensures kids[i].0 in ChildNodesBefore(steps, run.currentStep) || CurrentKid(steps, run) == [kids[i].0]
  {
    assert KidNames(kids)[i] == kids[i].0;
  }

  // ----- A node is passed, or waits ------------------------------------------------------------------------

  lemma NoCurrentKid(steps: seq<Node>, run: Run)
    requires run.currentStep <= |steps| && run.state.childRunIds == map[]
    ensures ChildNodesBefore(steps, run.currentStep) + CurrentKid(steps, run)
      == ChildNodesBefore(steps, run.currentStep)
  {
    NilRight(ChildNodesBefore(steps, run.currentStep));
  }

  lemma SettledKid(runs: map<RunId, Run>, run: Run, kid: Kid, name: string, value: Value, after: Run)
    requires KidOk(runs, run, kid) && kid.0 in run.state.results && kid.0 != name
    requires after.state.results == run.state.results[name := value]
    ensures KidOk(runs, after, kid)
  {
  }

  /** Passing a node that is not a child node disturbs no kid. */
  lemma PassedOther(steps: seq<Node>, runs: map<RunId, Run>, run: Run, kids: seq<Kid>, value: Value, after: Run)
    requires WellNamed(steps) && run.currentStep < |steps| && !steps[run.currentStep].ChildWorkflow?
    requires run.state.results.Keys == NamesBefore(steps, run.currentStep)
    requires KidsOk(steps, runs, run, kids)
    requires after.currentStep == run.currentStep + 1 && after.state.childRunIds == map[]
    requires after.state.results == run.state.results[steps[run.currentStep].name := value]
    ensures KidsOk(steps, runs, after, kids)
  {
    var name := steps[run.currentStep].name;
    CursorNameIsNew(steps, run.currentStep);
    NilRight(ChildNodesBefore(steps, run.currentStep));
    NoCurrentKid(steps, after);
    forall i | 0 <= i < |kids|
      ensures KidOk(runs, after, kids[i])
    {
      KidNamed(steps, run, kids, i);
      ChildNodesNamed(steps, run.currentStep, kids[i].0);
      SettledKid(runs, run, kids[i], name, value, after);
    }
  }

  /** The kid of the node under the cursor is the one its id names. */
  lemma CurrentKidIs(steps: seq<Node>, runs: map<RunId, Run>, run: Run, kids: seq<Kid>)
    requires WellNamed(steps) && run.currentStep < |steps|
    requires run.state.results.Keys == NamesBefore(steps, run.currentStep)
    requires KidsOk(steps, runs, run, kids) && CurrentKid(steps, run) != []
    ensures var name := steps[run.currentStep].name;
      |kids| > 0 && kids[|kids| - 1] == (name, run.state.childRunIds[name]) && run.state.childRunIds[name] in runs
  {
    CursorNameIsNew(steps, run.currentStep);
    LastKidNamed(steps, run, kids);
    assert KidOk(runs, run, kids[|kids| - 1]);
  }

  lemma LastKidNamed(steps: seq<Node>, run: Run, kids: seq<Kid>)
    requires run.currentStep < |steps| && CurrentKid(steps, run) != []
    requires KidNames(kids) == ChildNodesBefore(steps, run.currentStep) + CurrentKid(steps, run)
    ensures |kids| > 0 && kids[|kids| - 1].0 == steps[run.currentStep].name
  {
    var names := KidNames(kids);
    assert names[|names| - 1] == steps[run.currentStep].name;
  }

  /** Passing a child node whose child completed: the node takes the child's result. */
  lemma PassedChild(steps: seq<Node>, runs: map<RunId, Run>, run: Run, kids: seq<Kid>, after: Run)
    requires WellNamed(steps) && run.currentStep < |steps| && CurrentKid(steps, run) != []
    requires run.state.results.Keys == NamesBefore(steps, run.currentStep)
    requires KidsOk(steps, runs, run, kids)
    requires var child := run.state.childRunIds[steps[run.currentStep].name];
      child in runs && runs[child].status == Completed
      && after.state.results == run.state.results[steps[run.currentStep].name := ResultValue(runs[child])]
    requires after.currentStep == run.currentStep + 1 && after.state.childRunIds == map[]
    ensures KidsOk(steps, runs, after, kids)
  {
    var name := steps[run.currentStep].name;
    CursorNameIsNew(steps, run.currentStep);
    NoCurrentKid(steps, after);
    forall i | 0 <= i < |kids|
      ensures KidOk(runs, after, kids[i])
    {
      KidNamed(steps, run, kids, i);
      if kids[i].0 != name {
        ChildNodesNamed(steps, run.currentStep, kids[i].0);
        SettledKid(runs, run, kids[i], name, ResultValue(runs[run.state.childRunIds[name]]), after);
      }
    }
  }

  /** Staying at a node: the kids are as before, or the node has just got one. */
  lemma Stayed(steps: seq<Node>, runs: map<RunId, Run>, run: Run, kids: seq<Kid>, after: Run)
    requires run.currentStep < |steps| && run.state.results.Keys == NamesBefore(steps, run.currentStep)
    requires KidsOk(steps, runs, run, kids)
    requires after.currentStep == run.currentStep && after.state.results == run.state.results
    requires after.state.childRunIds == run.state.childRunIds
    requires after.status in {Compensating, Failed} ==>
      (CurrentKid(steps, run) == [] ||
       (var child := run.state.childRunIds[steps[run.currentStep].name];
        child in runs && runs[child].status == Failed
        && after.error == Some(ErrorOr(runs[child], CHILD_FALLBACK_ERROR))))
    ensures KidsOk(steps, runs, after, kids)
  {
    forall i | 0 <= i < |kids|
      ensures KidOk(runs, after, kids[i])
    {
      KidNamed(steps, run, kids, i);
      if kids[i].0 in ChildNodesBefore(steps, run.currentStep) {
        ChildNodesNamed(steps, run.currentStep, kids[i].0);
      }
    }
  }

  lemma Spawned(steps: seq<Node>, runs: map<RunId, Run>, run: Run, kids: seq<Kid>, after: Run, child: RunId)
    requires run.currentStep < |steps| && run.state.results.Keys == NamesBefore(steps, run.currentStep)
    requires WellNamed(steps) && steps[run.currentStep].ChildWorkflow?
    requires KidsOk(steps, runs, run, kids) && CurrentKid(steps, run) == [] && child in runs
    requires after.currentStep == run.currentStep && after.state.results == run.state.results
    requires after.state.childRunIds == run.state.childRunIds[steps[run.currentStep].name := child]
    requires after.status == Waiting
    ensures KidsOk(steps, runs, after, kids + [(steps[run.currentStep].name, child)])
  {
    var name := steps[run.currentStep].name;
    CursorNameIsNew(steps, run.currentStep);
    SpawnedNames(steps, run, kids, after, child);
    forall i | 0 <= i < |kids|
      ensures KidOk(runs, after, kids[i])
    {
      KidNamed(steps, run, kids, i);
      ChildNodesNamed(steps, run.currentStep, kids[i].0);
    }
  }

  lemma SpawnedNames(steps: seq<Node>, run: Run, kids: seq<Kid>, after: Run, child: RunId)
    requires run.currentStep < |steps| && steps[run.currentStep].ChildWorkflow?
    requires KidNames(kids) == ChildNodesBefore(steps, run.currentStep) + CurrentKid(steps, run)
    requires CurrentKid(steps, run) == [] && after.currentStep == run.currentStep
    requires steps[run.currentStep].name in after.state.childRunIds
    ensures KidNames(kids + [(steps[run.currentStep].name, child)])
      == ChildNodesBefore(steps, after.currentStep) + CurrentKid(steps, after)
  {
    NilRight(ChildNodesBefore(steps, run.currentStep));
    KidNamesPush(kids, (steps[run.currentStep].name, child));
  }

  lemma KidNamesPush(kids: seq<Kid>, kid: Kid)
    ensures KidNames(kids + [kid]) == KidNames(kids) + [kid.0]
  {
  }

  // ----- One advance -----------------------------------------------------------------------------------------

  /** Runs never disappear, and finished ones never change. */
  ghost predicate FinishedKept(runs: map<RunId, Run>, later: map<RunId, Run>) {
    forall c :: c in runs ==> c in later && (Terminal(runs[c].status) ==> later[c] == runs[c])
  }

  lemma KidsOkLater(steps: seq<Node>, runs: map<RunId, Run>, later: map<RunId, Run>, run: Run, kids: seq<Kid>)
    requires run.currentStep <= |steps| && KidsOk(steps, runs, run, kids) && FinishedKept(runs, later)
    ensures KidsOk(steps, later, run, kids)
  {
  }

  lemma ChildOutcomeKids(steps: seq<Node>, db: Db, runs: map<RunId, Run>, r: RunId, kids: seq<Kid>, nr: NodeRun,
      attempt: nat, ctx: Ctx, w: World)
    requires r in db.runs && WellNamed(steps) && RunOk(steps, db.runs[r], CompletedRows(db.journal, r))
    requires db.runs[r].currentStep < |steps| && steps[db.runs[r].currentStep].ChildWorkflow? && attempt > 0
    requires !Terminal(db.runs[r].status)
    requires FinishedKept(db.runs, runs) && KidsOk(steps, db.runs, db.runs[r], kids)
    requires nr == RunNode(db, steps[db.runs[r].currentStep], ctx, db.runs[r].state, attempt, w)
    requires nr.spawn.Some? ==> db.nextRun in runs
    ensures var name := steps[db.runs[r].currentStep].name;
      var after := ApplyOutcome(db.runs[r], r, steps[db.runs[r].currentStep], nr, []).run;
      after.currentStep <= |steps|
      && KidsOk(steps, runs, after, if nr.spawn.Some? then kids + [(name, db.nextRun)] else kids)
  {
    var run := db.runs[r];
    var node := steps[run.currentStep];
    var after := ApplyOutcome(run, r, node, nr, []).run;
    KidsOkLater(steps, db.runs, runs, run, kids);
    if node.name in run.state.childRunIds {
      var child := run.state.childRunIds[node.name];
      CurrentKidIs(steps, db.runs, run, kids);
      match db.runs[child].status {
        case Completed =>
          SettledShape(steps, run, nr, nr.outcome.value);
          PassedChild(steps, runs, run, kids, after);
        case Failed => Stayed(steps, runs, run, kids, after);
        case Pending => Stayed(steps, runs, run, kids, after);
        case Running => Stayed(steps, runs, run, kids, after);
        case Waiting => Stayed(steps, runs, run, kids, after);
        case Compensating => Stayed(steps, runs, run, kids, after);
      }
    } else if nr.spawn.Some? {
      Spawned(steps, runs, run, kids, after, db.nextRun);
    } else {
      Stayed(steps, runs, run, kids, after);
    }
  }

  lemma OtherOutcomeKids(steps: seq<Node>, runs: map<RunId, Run>, run: Run, r: RunId, kids: seq<Kid>, nr: NodeRun)
    requires WellNamed(steps) && run.currentStep < |steps| && !steps[run.currentStep].ChildWorkflow?
    requires run.state.results.Keys == NamesBefore(steps, run.currentStep) && run.state.childRunIds == map[]
    requires nr.state.results == run.state.results && nr.state.childRunIds == map[]
    requires KidsOk(steps, runs, run, kids)
    ensures var after := ApplyOutcome(run, r, steps[run.currentStep], nr, []).run;
      after.currentStep <= |steps| && KidsOk(steps, runs, after, kids)
  {
    var after := ApplyOutcome(run, r, steps[run.currentStep], nr, []).run;
    OtherOutcome(run, r, steps[run.currentStep], nr);
    if nr.outcome.NodeDone? {
      PassedOther(steps, runs, run, kids, nr.outcome.value, after);
    } else {
      Stayed(steps, runs, run, kids, after);
    }
  }

  lemma OtherOutcome(run: Run, r: RunId, node: Node, nr: NodeRun)
    requires !node.ChildWorkflow?
    ensures var after := ApplyOutcome(run, r, node, nr, []).run;
      && after.state.childRunIds == nr.state.childRunIds
      && after.currentStep == (if nr.outcome.NodeDone? then run.currentStep + 1 else run.currentStep)
      && after.state.results ==
           if nr.outcome.NodeDone? then nr.state.results[node.name := nr.outcome.value] else nr.state.results
  {
  }

  lemma OtherNodeKids(steps: seq<Node>, db: Db, runs: map<RunId, Run>, r: RunId, kids: seq<Kid>,
      attempt: nat, ctx: Ctx, w: World)
    requires r in db.runs && WellNamed(steps) && RunOk(steps, db.runs[r], CompletedRows(db.journal, r))
    requires db.runs[r].currentStep < |steps| && !steps[db.runs[r].currentStep].ChildWorkflow? && attempt > 0
    requires ctx.runId == r && KidsOk(steps, runs, db.runs[r], kids)
    ensures var node := steps[db.runs[r].currentStep];
      var nr := RunNode(db, node, ctx, db.runs[r].state, attempt, w);
      var after := ApplyOutcome(db.runs[r], r, node, nr, []).run;
      nr.spawn == None && after.currentStep <= |steps| && KidsOk(steps, runs, after, kids)
  {
    var run := db.runs[r];
    var node := steps[run.currentStep];
    RunNodeOk(steps, db, run, ctx, attempt, w);
    OnlyChildNodesTouchChildren(db, node, ctx, run.state, attempt, w);
    assert run.state.childRunIds == map[];
    OtherOutcomeKids(steps, runs, run, r, kids, RunNode(db, node, ctx, run.state, attempt, w));
  }

  lemma OnlyChildNodesTouchChildren(db: Db, node: Node, ctx: Ctx, st: State, attempt: nat, w: World)
    requires !node.ChildWorkflow?
    ensures var nr := RunNode(db, node, ctx, st, attempt, w);
      nr.state.childRunIds == st.childRunIds && nr.spawn == None
  {
  }

  lemma NodeKids(steps: seq<Node>, db: Db, runs: map<RunId, Run>, r: RunId, kids: seq<Kid>,
      attempt: nat, ctx: Ctx, w: World)
    requires r in db.runs && WellNamed(steps) && RunOk(steps, db.runs[r], CompletedRows(db.journal, r))
    requires db.runs[r].currentStep < |steps| && attempt > 0 && !Terminal(db.runs[r].status)
    requires ctx.runId == r && FinishedKept(db.runs, runs) && KidsOk(steps, db.runs, db.runs[r], kids)
    requires RunNode(db, steps[db.runs[r].currentStep], ctx, db.runs[r].state, attempt, w).spawn.Some?
      ==> db.nextRun in runs
    ensures var node := steps[db.runs[r].currentStep];
      var nr := RunNode(db, node, ctx, db.runs[r].state, attempt, w);
      var after := ApplyOutcome(db.runs[r], r, node, nr, []).run;
      after.currentStep <= |steps| && KidsOk(steps, runs, after, kids + Kids(SpawnEffects(db, r, node, nr), r))
  {
    var node := steps[db.runs[r].currentStep];
    NilRight(kids);
    if node.ChildWorkflow? {
      ChildOutcomeKids(steps, db, runs, r, kids, RunNode(db, node, ctx, db.runs[r].state, attempt, w), attempt, ctx, w);
      OneKid(ChildStarted(r, node.name, db.nextRun), r);
    } else {
      KidsOkLater(steps, db.runs, runs, db.runs[r], kids);
      OtherNodeKids(steps, db, runs, r, kids, attempt, ctx, w);
    }
  }

  function SpawnEffects(db: Db, r: RunId, node: Node, nr: NodeRun): seq<Effect> {
    if nr.spawn.Some? then [ChildStarted(r, node.name, db.nextRun)] else []
  }

  lemma NodeMove(wf: Workflow, db: Db, r: RunId, w: World)
    requires r in db.runs && db.runs[r].currentStep < |wf.steps|
    requires var found := Lookup(db.journal, r, wf.steps[db.runs[r].currentStep].name);
      found.Some? ==> found.value.status == RowFailed
    ensures var run, move := db.runs[r], AdvanceMove(wf, db, r, w);
      var node := wf.steps[run.currentStep];
      var attempt := Attempt(run.state, node.name);
      var nr := RunNode(db, node, Ctx(run.input, run.state.results, r, attempt), run.state, attempt, w);
      && move.run == ApplyOutcome(run, r, node, nr, []).run
      && move.effects == SpawnEffects(db, r, node, nr) && move.spawn == nr.spawn
  {
  }

  lemma CompletedKids(steps: seq<Node>, runs: map<RunId, Run>, run: Run, kids: seq<Kid>)
    requires run.currentStep == |steps| && ShapeOk(steps, run) && KidsOk(steps, runs, run, kids)
    ensures KidsOk(steps, runs, MarkCompleted(run).run, kids)
  {
    assert MarkCompleted(run).run.state == run.state;
  }

  lemma AdvanceMoveKids(wf: Workflow, db: Db, r: RunId, w: World)
    requires r in db.runs && !Terminal(db.runs[r].status) && WellNamed(wf.steps) && KeysOk(db)
    requires RunOk(wf.steps, db.runs[r], CompletedRows(db.journal, r))
    requires KidsOk(wf.steps, db.runs, db.runs[r], Kids(db.log, r))
    ensures var move := AdvanceMove(wf, db, r, w);
      && move.run.currentStep <= |wf.steps|
      && KidsOk(wf.steps, RunsAfter(db, r, move), move.run, Kids(db.log, r) + Kids(move.effects, r))
  {
    var run, kids := db.runs[r], Kids(db.log, r);
    var move := AdvanceMove(wf, db, r, w);
    var runs := RunsAfter(db, r, move);
    KidsOkLater(wf.steps, db.runs, runs, run, kids);
    NilRight(kids);
    if run.currentStep < |wf.steps| {
      NodeNotReplayed(wf, db, r);
      NodeMove(wf, db, r, w);
      var attempt := Attempt(run.state, wf.steps[run.currentStep].name);
      NodeKids(wf.steps, db, runs, r, kids, attempt, Ctx(run.input, run.state.results, r, attempt), w);
    } else {
      CompletedKids(wf.steps, runs, run, kids);
    }
  }

  // ----- The whole system ---------------------------------------------------------------------------------------

  ghost predicate AllKidsOk(reg: Registry, db: Db) {
    forall r :: (r in db.runs && db.runs[r].workflow in reg
        && db.runs[r].currentStep <= |reg[db.runs[r].workflow].steps|) ==>
      KidsOk(reg[db.runs[r].workflow].steps, db.runs, db.runs[r], Kids(db.log, r))
  }

  lemma ApplyMoveKids(reg: Registry, db: Db, q: RunId, move: Move)
    requires KeysOk(db) && LogOwned(db) && AllKidsOk(reg, db) && q in db.runs && !Terminal(db.runs[q].status)
    requires forall i :: 0 <= i < |move.effects| ==> move.effects[i].runId == q
    requires move.run.workflow in reg && move.run.currentStep <= |reg[move.run.workflow].steps|
    requires KidsOk(reg[move.run.workflow].steps, RunsAfter(db, q, move), move.run,
      Kids(db.log, q) + Kids(move.effects, q))
    ensures AllKidsOk(reg, ApplyMove(db, q, move))
  {
    ApplyMoveRuns(db, q, move);
    var after := ApplyMove(db, q, move);
    forall r | r in after.runs && after.runs[r].workflow in reg
        && after.runs[r].currentStep <= |reg[after.runs[r].workflow].steps|
      ensures KidsOk(reg[after.runs[r].workflow].steps, after.runs, after.runs[r], Kids(after.log, r))
    {
      KidsAppend(db.log, move.effects, r);
      if r != q {
        NoKids(move.effects, r);
        NilRight(Kids(db.log, r));
        if r in db.runs {
          KidsOkLater(reg[db.runs[r].workflow].steps, db.runs, after.runs, db.runs[r], Kids(db.log, r));
        } else {
          NoKids(db.log, r);
          NewRunKids(reg[after.runs[r].workflow].steps, after.runs, after.runs[r]);
        }
      }
    }
  }

  lemma NewRunKids(steps: seq<Node>, runs: map<RunId, Run>, run: Run)
    requires run == NewRun(run.workflow, run.input)
    ensures KidsOk(steps, runs, run, [])
  {
  }

  lemma AdvanceKids(reg: Registry, db: Db, q: RunId, w: World)
    requires RegistryOk(reg) && DbOk(reg, db) && LogOwned(db) && AllKidsOk(reg, db)
    ensures AllKidsOk(reg, Advance(reg, db, q, w))
  {
    if q in db.runs && !Terminal(db.runs[q].status) {
      var wf := reg[db.runs[q].workflow];
      var move := AdvanceMove(wf, db, q, w);
      AdvanceMoveOwn(wf, db, q, w);
      AdvanceEffects(wf, db, q, w);
      AdvanceMoveKids(wf, db, q, w);
      ApplyMoveKids(reg, db, q, move);
    }
  }

  lemma RolledBackKids(steps: seq<Node>, runs: map<RunId, Run>, run: Run, kids: seq<Kid>)
    requires run.currentStep <= |steps| && run.status == Compensating && KidsOk(steps, runs, run, kids)
    ensures KidsOk(steps, runs, run.(status := Failed), kids)
  {
  }

  lemma CompensateKids(reg: Registry, db: Db, q: RunId, w: World)
    requires RegistryOk(reg) && DbOk(reg, db) && LogOwned(db) && AllKidsOk(reg, db)
    ensures AllKidsOk(reg, Compensate(reg, db, q, w))
  {
    if q in db.runs && db.runs[q].status == Compensating {
      var run := db.runs[q];
      var wf := reg[run.workflow];
      var move := CompensateMove(wf, db, q, w);
      var names := Reverse(CompletedNames(db.journal, q));
      CompensateAllOwned(wf, names, Ctx(run.input, run.state.results, q, 1), w);
      CompensateAllNoKids(wf, names, Ctx(run.input, run.state.results, q, 1), w);
      NoKids(move.effects, q);
      NilRight(Kids(db.log, q));
      KidsOkLater(wf.steps, db.runs, RunsAfter(db, q, move), run, Kids(db.log, q));
      RolledBackKids(wf.steps, RunsAfter(db, q, move), run, Kids(db.log, q));
      ApplyMoveKids(reg, db, q, move);
    }
  }

  lemma {:induction false} CompensateAllNoKids(wf: Workflow, names: seq<string>, ctx: Ctx, w: World)
    ensures forall i :: 0 <= i < |CompensateAll(wf, names, ctx, w)| ==>
      !CompensateAll(wf, names, ctx, w)[i].ChildStarted?
  {
    if names != [] {
      CompensateAllNoKids(wf, names[..|names| - 1], ctx, w);
    }
  }

  lemma SignalMoveKids(steps: seq<Node>, runs: map<RunId, Run>, run: Run, r: RunId, rows: seq<Entry>, kids: seq<Kid>,
      signal: string, payload: Value)
    requires WellNamed(steps) && RunOk(steps, run, rows) && run.status == Waiting
    requires FindAwaiting(run.state.awaitingSignals, signal).Some?
    requires KidsOk(steps, runs, run, kids)
    ensures var move := SignalMove(run, r, FindAwaiting(run.state.awaitingSignals, signal).value, payload);
      && move.run.currentStep <= |steps|
      && KidsOk(steps, runs, move.run, kids)
  {
    SignalMoveOk(steps, run, r, rows, signal, payload);
    var name := steps[run.currentStep].name;
    OnlyAwaiting(run.state.awaitingSignals, name, signal);
    SignalledShape(steps, run, payload);
    PassedOther(steps, runs, run, kids, payload, SignalMove(run, r, name, payload).run);
  }

  lemma SignalKids(reg: Registry, db: Db, q: RunId, signal: string, payload: Value)
    requires RegistryOk(reg) && DbOk(reg, db) && LogOwned(db) && AllKidsOk(reg, db)
    ensures AllKidsOk(reg, Signal(db, q, signal, payload))
  {
    var target := SignalTarget(db, q, signal);
    if target.Some? {
      var run := db.runs[q];
      var steps := reg[run.workflow].steps;
      var move := SignalMove(run, q, target.value, payload);
      SignalMoveOwn(run, q, target.value, payload);
      SignalNoKids(run, q, target.value, payload);
      NilRight(Kids(db.log, q));
      SignalledKids(steps, db, q, signal, payload);
      ApplyMoveKids(reg, db, q, move);
    }
  }

  lemma SignalledKids(steps: seq<Node>, db: Db, q: RunId, signal: string, payload: Value)
    requires WellNamed(steps) && SignalTarget(db, q, signal).Some?
    requires RunOk(steps, db.runs[q], CompletedRows(db.journal, q))
    requires KidsOk(steps, db.runs, db.runs[q], Kids(db.log, q))
    ensures var move := SignalMove(db.runs[q], q, SignalTarget(db, q, signal).value, payload);
      move.run.currentStep <= |steps| && KidsOk(steps, RunsAfter(db, q, move), move.run, Kids(db.log, q))
  {
    var run := db.runs[q];
    var move := SignalMove(run, q, SignalTarget(db, q, signal).value, payload);
    KidsOkLater(steps, db.runs, RunsAfter(db, q, move), run, Kids(db.log, q));
    SignalMoveKids(steps, RunsAfter(db, q, move), run, q, CompletedRows(db.journal, q), Kids(db.log, q), signal,
      payload);
  }

  lemma SignalNoKids(run: Run, q: RunId, name: string, payload: Value)
    ensures var effects := SignalMove(run, q, name, payload).effects;
      Kids(effects, q) == [] && forall i :: 0 <= i < |effects| ==> effects[i].runId == q
  {
    NoKids(SignalMove(run, q, name, payload).effects, q);
  }

  lemma StartKids(reg: Registry, db: Db, workflow: string, input: Value)
    requires KeysOk(db) && LogOwned(db) && AllKidsOk(reg, db)
    ensures AllKidsOk(reg, Start(reg, db, workflow, input))
  {
    if workflow in reg {
      var after := Start(reg, db, workflow, input);
      forall r | r in after.runs && after.runs[r].workflow in reg
          && after.runs[r].currentStep <= |reg[after.runs[r].workflow].steps|
        ensures KidsOk(reg[after.runs[r].workflow].steps, after.runs, after.runs[r], Kids(after.log, r))
      {
        if r == db.nextRun {
          NoKids(db.log, r);
          NewRunKids(reg[workflow].steps, after.runs, after.runs[r]);
        } else {
          KidsOkLater(reg[db.runs[r].workflow].steps, db.runs, after.runs, db.runs[r], Kids(db.log, r));
        }
      }
    }
  }

  lemma NextKids(reg: Registry, db: Db, event: Event)
    requires RegistryOk(reg) && DbOk(reg, db) && LogOwned(db) && AllKidsOk(reg, db)
    ensures AllKidsOk(reg, Next(reg, db, event))
  {
    match event {
      case StartEvent(workflow, input) => StartKids(reg, db, workflow, input);
      case Deliver(job, w) =>
        if job in db.jobs {
          HandleKids(reg, db.(jobs := db.jobs - {job}), db.jobs[job], w);
        }
      case Redeliver(stray, w) => HandleKids(reg, db, stray, w);
      case SignalEvent(q, signal, payload) => SignalKids(reg, db, q, signal, payload);
    }
  }

  lemma HandleKids(reg: Registry, db: Db, job: Job, w: World)
    requires RegistryOk(reg) && DbOk(reg, db) && LogOwned(db) && AllKidsOk(reg, db)
    ensures AllKidsOk(reg, Handle(reg, db, job, w))
  {
    match job {
      case AdvanceJob(q, _) => AdvanceKids(reg, db, q, w);
      case CompensateJob(q) => CompensateKids(reg, db, q, w);
    }
  }

  lemma {:induction false} ReachableKids(reg: Registry, events: seq<Event>)
    requires RegistryOk(reg)
    ensures AllKidsOk(reg, Exec(reg, events))
  {
    if events != [] {
      var init := events[..|events| - 1];
      ReachableKids(reg, init);
      ReachableOk(reg, init);
      ReachableSaga(reg, init);
      NextKids(reg, Exec(reg, init), events[|events| - 1]);
    }
  }

  // ----- What the invariant says ------------------------------------------------------------------------------------

  lemma {:induction false} ChildNodesDistinct(steps: seq<Node>, n: nat, i: nat, j: nat)
    requires WellNamed(steps) && n <= |steps| && i < j < |ChildNodesBefore(steps, n)|
    ensures ChildNodesBefore(steps, n)[i] != ChildNodesBefore(steps, n)[j]
  {
    var before := ChildNodesBefore(steps, n - 1);
    if j < |before| {
      ChildNodesDistinct(steps, n - 1, i, j);
    } else {
      ChildNodesNamed(steps, n - 1, before[i]);
    }
  }

  lemma KidsDistinct(steps: seq<Node>, runs: map<RunId, Run>, run: Run, kids: seq<Kid>, i: nat, j: nat)
    requires WellNamed(steps) && run.currentStep <= |steps| && KidsOk(steps, runs, run, kids) && i < j < |kids|
    ensures kids[i].0 != kids[j].0
  {
    assert KidNames(kids)[i] == kids[i].0 && KidNames(kids)[j] == kids[j].0;
    var before := ChildNodesBefore(steps, run.currentStep);
    if j < |before| {
      ChildNodesDistinct(steps, run.currentStep, i, j);
    } else {
      ChildNodesNamed(steps, run.currentStep, before[i]);
      CursorNameIsNew(steps, run.currentStep);
    }
  }

  /** However jobs are redelivered, no child node of a run ever starts two children. */
  lemma OneChildPerNode(reg: Registry, events: seq<Event>, r: RunId, i: nat, j: nat)
    requires RegistryOk(reg) && r in Exec(reg, events).runs
    requires i < j < |Kids(Exec(reg, events).log, r)|
    ensures Kids(Exec(reg, events).log, r)[i].0 != Kids(Exec(reg, events).log, r)[j].0
  {
    ReachableOk(reg, events);
    ReachableKids(reg, events);
    var db := Exec(reg, events);
    KidsDistinct(reg[db.runs[r].workflow].steps, db.runs, db.runs[r], Kids(db.log, r), i, j);
  }

  /** A node's child: started by it, completed, and the source of the node's result. */
  ghost predicate ChildTaken(db: Db, r: RunId, name: string, child: RunId) {
    && r in db.runs && child in db.runs && (name, child) in Kids(db.log, r)
    && db.runs[child].status == Completed && db.runs[child].result.Some?
    && name in db.runs[r].state.results
    && db.runs[r].state.results[name] == Record(db.runs[child].result.value)
  }

  lemma ChildOf(reg: Registry, db: Db, r: RunId, i: nat) returns (child: RunId)
    requires DbOk(reg, db) && AllKidsOk(reg, db) && r in db.runs && db.runs[r].workflow in reg
    requires i < db.runs[r].currentStep <= |reg[db.runs[r].workflow].steps|
    requires reg[db.runs[r].workflow].steps[i].ChildWorkflow?
    ensures ChildTaken(db, r, reg[db.runs[r].workflow].steps[i].name, child)
  {
    var run := db.runs[r];
    var steps, kids := reg[run.workflow].steps, Kids(db.log, r);
    ChildNodesListed(steps, run.currentStep, i);
    ChildNodesNamed(steps, run.currentStep, steps[i].name);
    var k :| 0 <= k < |ChildNodesBefore(steps, run.currentStep)|
      && ChildNodesBefore(steps, run.currentStep)[k] == steps[i].name;
    assert KidNames(kids)[k] == kids[k].0;
    assert KidOk(db.runs, run, kids[k]);
    return kids[k].1;
  }

  /** Every child node before the cursor has started a child, that child has completed, and
      the node's result is the child's result, which no later event can change. */
  lemma ChildResult(reg: Registry, events: seq<Event>, r: RunId, i: nat, more: seq<Event>)
    requires RegistryOk(reg) && r in Exec(reg, events).runs && Exec(reg, events).runs[r].workflow in reg
    requires i < Exec(reg, events).runs[r].currentStep <= |reg[Exec(reg, events).runs[r].workflow].steps|
    requires reg[Exec(reg, events).runs[r].workflow].steps[i].ChildWorkflow?
    ensures var db, later := Exec(reg, events), Exec(reg, events + more);
      exists child ::
        && ChildTaken(db, r, reg[db.runs[r].workflow].steps[i].name, child)
        && child in later.runs && later.runs[child] == db.runs[child]
  {
    ReachableOk(reg, events);
    ReachableKids(reg, events);
    var child := ChildOf(reg, Exec(reg, events), r, i);
    RunsOnlyMoveForward(reg, events, more, child);
  }

  /** If a run rolls back at a child node that has started a child, that child has failed, and
      the run's error is the child's error. The engine's fallback message is never needed. */
  lemma ChildFailure(reg: Registry, events: seq<Event>, r: RunId, k: nat)
    requires RegistryOk(reg) && r in Exec(reg, events).runs
    requires Exec(reg, events).runs[r].status in {Compensating, Failed}
    requires k < |Kids(Exec(reg, events).log, r)|
    requires Kids(Exec(reg, events).log, r)[k].0 !in Exec(reg, events).runs[r].state.results
    ensures var db := Exec(reg, events);
      var child := Kids(db.log, r)[k].1;
      && child in db.runs && db.runs[child].status == Failed
      && db.runs[child].error.Some? && db.runs[r].error == db.runs[child].error
  {
    ReachableOk(reg, events);
    ReachableKids(reg, events);
    var db := Exec(reg, events);
    assert KidOk(db.runs, db.runs[r], Kids(db.log, r)[k]);
  }

  /** The run stands at a child node whose child has failed. */
  predicate ChildFailed(steps: seq<Node>, runs: map<RunId, Run>, run: Run, child: RunId) {
    && !Terminal(run.status) && run.currentStep < |steps| && steps[run.currentStep].ChildWorkflow?
    && steps[run.currentStep].name in run.state.childRunIds
    && run.state.childRunIds[steps[run.currentStep].name] == child
    && child in runs && runs[child].status == Failed
  }

  lemma FailedChildMove(wf: Workflow, db: Db, r: RunId, child: RunId, w: World)
    requires r in db.runs && ChildFailed(wf.steps, db.runs, db.runs[r], child) && db.runs[child].error.Some?
    requires var found := Lookup(db.journal, r, wf.steps[db.runs[r].currentStep].name);
      found.Some? ==> found.value.status == RowFailed
    ensures var run := AdvanceMove(wf, db, r, w).run;
      run.status == Compensating && run.error == db.runs[child].error
  {
  }

  lemma FailedHasError(steps: seq<Node>, run: Run, rows: seq<Entry>)
    requires RunOk(steps, run, rows) && run.status == Failed
    ensures run.error.Some?
  {
  }

  /** Once a node's child has failed, the next advance of the parent, whenever it comes, makes
      the parent roll back with the child's error. */
  lemma FailedChildFailsParent(reg: Registry, events: seq<Event>, r: RunId, child: RunId, w: World)
    requires RegistryOk(reg) && r in Exec(reg, events).runs && Exec(reg, events).runs[r].workflow in reg
    requires ChildFailed(reg[Exec(reg, events).runs[r].workflow].steps, Exec(reg, events).runs,
      Exec(reg, events).runs[r], child)
    ensures var db, after := Exec(reg, events), Advance(reg, Exec(reg, events), r, w);
      && r in after.runs && after.runs[r].status == Compensating
      && after.runs[r].error == db.runs[child].error && db.runs[child].error.Some?
  {
    ReachableOk(reg, events);
    var db := Exec(reg, events);
    var wf := reg[db.runs[r].workflow];
    AdvanceIsMove(reg, db, r, w);
    NodeNotReplayed(wf, db, r);
    FailedHasError(reg[db.runs[child].workflow].steps, db.runs[child], CompletedRows(db.journal, child));
    FailedChildMove(wf, db, r, child, w);
    ApplyMoveRuns(db, r, AdvanceMove(wf, db, r, w));
  }
}
