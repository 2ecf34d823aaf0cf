/** The names that matter: the engine runs every workflow of a shape truthfully if and only if the
    nodes a run can reach are well named. */
module DurableExactNames {
  import opened Prelude
  import opened DurableTypes
  import opened DurableSpec
  import opened DurableJournal
  import opened DurableRunInvariant
  import opened DurableReachable
  import opened DurableHistory
  import opened DurableTokens
  import opened DurableChange
  import opened DurableBigStep
  import opened DurableShapes
  import opened DurableSimulation
  import opened DurableInstances
  import opened DurableDriver

  // ----- What the journal holds on arrival ------------------------------------------------------------------

  lemma {:induction false} PastRowsHave(steps: seq<Node>, n: nat, results: map<string, Value>, i: nat, entry: Entry)
    requires i < n <= |steps| && NamesBefore(steps, n) <= results.Keys && steps[i].name in results
    requires entry in NodeRows(steps[i], results[steps[i].name])
    ensures entry in PastRows(steps, n, results)
  {
    if i < n - 1 {
      PastRowsHave(steps, n - 1, results, i, entry);
    }
  }

  lemma {:induction false} RowFound(journal: seq<JournalRow>, r: RunId, entry: Entry)
    requires entry in CompletedRows(journal, r) && AllCompleted(journal)
    ensures Lookup(journal, r, entry.0).Some? && Lookup(journal, r, entry.0).value.status == RowCompleted
  {
    CompletedRowsAppend(journal[..1], journal[1..], r);
    assert journal == journal[..1] + journal[1..];
    if !(journal[0].runId == r && journal[0].stepName == entry.0) {
      OneRow(journal[0], r);
      assert journal[..1] == [journal[0]];
      RowFound(journal[1..], r, entry);
    }
  }

  /** A journal lookup under the name of a completed row gives its value. */
  lemma LookupGives(journal: seq<JournalRow>, r: RunId, name: string, value: Value)
    requires (name, value) in CompletedRows(journal, r) && AllCompleted(journal)
    requires DistinctRows(CompletedRows(journal, r))
    ensures var found := Lookup(journal, r, name);
      found.Some? && found.value.status == RowCompleted && found.value.result == value
  {
    RowFound(journal, r, (name, value));
    LookupFindsRow(journal, r, name);
    var rows := CompletedRows(journal, r);
    var i :| 0 <= i < |rows| && rows[i] == (name, value);
    var j :| 0 <= j < |rows| && rows[j] == (name, Lookup(journal, r, name).value.result);
  }

  /** The value of a node stays in the results of the nodes behind it. */
  lemma {:induction false} StoredStays(steps: seq<Node>, input: Value, i: nat, n: nat, value: Value)
    requires ChildFree(steps) && i < n <= |steps| && ResultsUpTo(steps, input, 0, Payload, n).Some?
    requires forall j :: i < j < n ==> steps[j].name != steps[i].name
    requires ResultsUpTo(steps, input, 0, Payload, i).Some?
    requires Own(steps[i], input, ResultsUpTo(steps, input, 0, Payload, i).value, 0, Payload) == Ok(value)
    ensures var results := ResultsUpTo(steps, input, 0, Payload, n).value;
      steps[i].name in results && results[steps[i].name] == value
  {
    if i < n - 1 {
      StoredStays(steps, input, i, n - 1, value);
    }
  }

  lemma {:induction false} SomeBefore(steps: seq<Node>, input: Value, i: nat, n: nat)
    requires ChildFree(steps) && i <= n <= |steps| && ResultsUpTo(steps, input, 0, Payload, n).Some?
    ensures ResultsUpTo(steps, input, 0, Payload, i).Some?
  {
    if i < n {
      SomeBefore(steps, input, i, n - 1);
    }
  }

  predicate LoopStored(s: Setup, results: map<string, Value>)
    requires s.loop < |s.nodes|
  {
    s.nodes[s.loop].name in results && results[s.nodes[s.loop].name] == List(Trues(s.rounds))
  }

  lemma LoopResult(s: Setup, input: Value, n: nat)
    requires SetupOk(s) && ChildFree(Full(s)) && DistinctNames(s.nodes) && s.loop < n <= s.m && s.nodes[s.loop].Loop?
    requires ResultsUpTo(Full(s), input, 0, Payload, n).Some?
    ensures LoopStored(s, ResultsUpTo(Full(s), input, 0, Payload, n).value)
  {
    SomeBefore(Full(s), input, s.loop, n);
    var before := ResultsUpTo(Full(s), input, 0, Payload, s.loop).value;
    OwnPasses(s.nodes[s.loop], s.rounds, input, before, 0);
    StoredStays(Full(s), input, s.loop, n, List(Trues(s.rounds)));
  }

  /** What is known where the driver stops. */
  lemma ArrivalFacts(s: Setup, events: seq<Event>)
    requires Driven(s, events) && Arrived(s, RunIn(s, events)) && ChildFree(Full(s))
    ensures var a, run := Exec(Alone(Full(s)), events), RunIn(s, events);
      && a.runs.Keys == {0} && a.runs[0] == run && run.workflow == "w" && run.currentStep == s.m
      && RunOk(Cut(s), run, CompletedRows(a.journal, 0)) && DistinctRows(CompletedRows(a.journal, 0))
      && AllCompleted(a.journal)
      && ResultsUpTo(Full(s), run.input, 0, Payload, s.m) == Some(run.state.results)
      && !Terminal(run.status) && SignalsAgree(a.log, 0, Payload)
  {
    var b, run := Exec(Alone(Cut(s)), events), RunIn(s, events);
    DrivenFacts(s, events);
    RunRowsDistinct(Cut(s), run, CompletedRows(b.journal, 0));
    SameUpTo(s, run.input, s.m);
  }

  lemma ArrivalJob(s: Setup, events: seq<Event>) returns (job: nat)
    requires Driven(s, events) && Arrived(s, RunIn(s, events))
    ensures Due(Exec(Alone(Full(s)), events), job)
  {
    var b := Exec(Alone(Cut(s)), events);
    DrivenFacts(s, events);
    job :| job in b.jobs && b.jobs[job].AdvanceJob? && JobsOf(b.jobs, 0) == {job};
    assert job in JobsOf(b.jobs, 0);
  }

  lemma {:induction false} SameUpTo(s: Setup, input: Value, n: nat)
    requires SetupOk(s) && ChildFree(Full(s)) && ChildFree(Cut(s)) && n <= s.m
    ensures n <= |Cut(s)|
    ensures ResultsUpTo(Full(s), input, 0, Payload, n) == ResultsUpTo(Cut(s), input, 0, Payload, n)
  {
    if n > 0 {
      SameUpTo(s, input, n - 1);
      assert Full(s)[n - 1] == Cut(s)[n - 1];
    }
  }

  /** The delivery that follows, in the full workflow. */
  lemma LastDelivery(s: Setup, events: seq<Event>, job: nat)
    requires Driven(s, events) && Arrived(s, RunIn(s, events)) && ChildFree(Full(s))
    requires Due(Exec(Alone(Full(s)), events), job)
    ensures var more := events + [Deliver(job, HERE)];
      var a, after := Exec(Alone(Full(s)), events), Exec(Alone(Full(s)), more);
      && ExactlyOnce(more) && 0 in after.runs && SignalsAgree(after.log, 0, Payload)
      && 0 in a.runs && after.runs[0] == AdvanceMove(Workflow("w", Full(s)), a, 0, HERE).run
  {
    ArrivalFacts(s, events);
    SnocExec(Alone(Full(s)), events, Deliver(job, HERE));
    Delivered(Full(s), Exec(Alone(Full(s)), events), job);
    OnceOn(events, Deliver(job, HERE));
  }

  lemma Delivered(full: seq<Node>, a: Db, job: nat)
    requires ChildFree(full) && Due(a, job) && 0 in a.runs && a.runs[0].workflow == "w"
    requires !Terminal(a.runs[0].status)
    ensures var after := Next(Alone(full), a, Deliver(job, HERE));
      0 in after.runs && after.runs[0] == AdvanceMove(Workflow("w", full), a, 0, HERE).run && after.log == a.log
  {
    var taken := a.(jobs := a.jobs - {job});
    QueueIrrelevant(Workflow("w", full), a, taken.jobs, 0, HERE);
    NoEffects(full, taken, HERE);
    DeliveryIsMove(full, a, job, HERE);
    ApplyMoveRuns(taken, 0, AdvanceMove(Workflow("w", full), taken, 0, HERE));
    NilRight(a.log);
  }

  lemma NoEffects(full: seq<Node>, db: Db, w: World)
    requires ChildFree(full) && 0 in db.runs
    ensures var move := AdvanceMove(Workflow("w", full), db, 0, w);
      move.spawn == None && move.effects == []
  {
  }

  // ----- A later node is taken for done ----------------------------------------------------------------------

  /** What both deviations assume of the declaration, up to node `m`. */
  ghost predicate Declared(nodes: seq<Node>, m: nat) {
    && m < |nodes| && ChildFree(nodes) && DistinctNames(nodes) && RoutesHaveBranches(nodes)
    && WellNamed(nodes[..m]) && (forall i :: 0 <= i < m ==> !Dead(nodes[i]))
  }

  ghost predicate Untruthful(nodes: seq<Node>, steps: seq<Node>, events: seq<Event>) {
    && Variant(nodes, steps) && ExactlyOnce(events) && Observed(steps, events, 0, Payload)
    && !TruthfulRun(steps, events, 0, Payload)
  }

  lemma LaterCut(s: Setup)
    requires SetupOk(s) && Declared(s.nodes, s.m) && s.loop < s.m
    ensures WellNamed(Cut(s)) && PureSteps(Cut(s)) && PureSteps(Full(s))
  {
    InstancesAreVariant(s.nodes, s.loop, s.rounds);
    ShapeKeepsNaming(s.nodes, Full(s), s.m);
  }

  lemma KeyJournaled(s: Setup, events: seq<Event>, k: nat)
    requires Driven(s, events) && Arrived(s, RunIn(s, events)) && ChildFree(Full(s)) && DistinctNames(s.nodes)
    requires s.loop < s.m && s.nodes[s.loop].Loop? && k < s.rounds
    ensures (IterKey(s.nodes[s.loop].name, k), Bool(true)) in CompletedRows(Exec(Alone(Full(s)), events).journal, 0)
  {
    ArrivalFacts(s, events);
    var run, node := RunIn(s, events), Cut(s)[s.loop];
    LoopResult(s, run.input, s.m);
    var value := run.state.results[node.name];
    var rows := IterRows(node.name, Kept(value.items, PastBound(node)));
    assert rows[k] == (IterKey(node.name, k), Bool(true));
    assert NodeRows(node, value)[k] == rows[k];
    PastRowsHave(Cut(s), s.m, run.state.results, s.loop, rows[k]);
  }

  /** A node behind a loop that is named as an iteration the loop can finish after: the engine
      takes the iteration's value for the node's own. */
  lemma LaterNodeSkipped(nodes: seq<Node>, i: nat, m: nat, k: nat) returns (steps: seq<Node>, events: seq<Event>)
    requires Declared(nodes, m) && i < m && Clash(nodes, i, m, k) && k + 1 < nodes[i].maxIterations
    ensures Untruthful(nodes, steps, events)
  {
    var s := Setup(nodes, m, i, k + 1);
    LaterCut(s);
    InstancesAreVariant(nodes, i, k + 1);
    var start := Drive(s);
    ArrivalFacts(s, start);
    KeyJournaled(s, start, k);
    var a := Exec(Alone(Full(s)), start);
    var job := ArrivalJob(s, start);
    LastDelivery(s, start, job);
    LookupGives(a.journal, 0, nodes[m].name, Bool(true));
    OwnIsNotTrue(nodes[m], 0, a.runs[0].input, a.runs[0].state.results, 0);
    steps, events := Full(s), start + [Deliver(job, HERE)];
    NotOwn(steps, a.runs[0], Exec(Alone(steps), events).runs[0], Bool(true));
  }

  /** A run that has passed a node with another value than the node's own is not truthful. */
  lemma NotOwn(steps: seq<Node>, run: Run, after: Run, value: Value)
    requires ChildFree(steps) && run.currentStep < |steps| && after.input == run.input
    requires ResultsUpTo(steps, run.input, 0, Payload, run.currentStep) == Some(run.state.results)
    requires after.currentStep == run.currentStep + 1
    requires after.state.results == run.state.results[steps[run.currentStep].name := value]
    requires Own(steps[run.currentStep], run.input, run.state.results, 0, Payload) != Ok(value)
    ensures !Truthful(steps, after, 0, Payload)
  {
    var own := Own(steps[run.currentStep], run.input, run.state.results, 0, Payload);
    UpToNext(steps, run.input, run.currentStep, run.state.results);
    if own.Ok? {
      OtherValue(run.state.results, steps[run.currentStep].name, own.value, value);
    }
    if Truthful(steps, after, 0, Payload) {
      TruthfulResults(steps, after);
      assert false;
    }
  }

  lemma UpToNext(steps: seq<Node>, input: Value, n: nat, results: map<string, Value>)
    requires ChildFree(steps) && n < |steps| && ResultsUpTo(steps, input, 0, Payload, n) == Some(results)
    ensures ResultsUpTo(steps, input, 0, Payload, n + 1)
      == match Own(steps[n], input, results, 0, Payload)
         case Err(_) => None
         case Ok(value) => Some(results[steps[n].name := value])
  {
  }

  lemma TruthfulResults(steps: seq<Node>, run: Run)
    requires ChildFree(steps) && Truthful(steps, run, 0, Payload)
    ensures run.currentStep <= |steps|
    ensures ResultsUpTo(steps, run.input, 0, Payload, run.currentStep) == Some(run.state.results)
  {
  }

  lemma OtherValue(results: map<string, Value>, name: string, a: Value, b: Value)
    requires a != b
    ensures results[name := a] != results[name := b]
  {
    assert results[name := a][name] != results[name := b][name];
  }

  // ----- A loop takes an earlier node for its iteration ----------------------------------------------------------

  /** Some earlier node is named as iteration `k` of loop `m`. */
  ghost predicate EarlierKey(nodes: seq<Node>, m: nat, k: nat)
    requires m < |nodes|
  {
    exists j :: 0 <= j < m && Clash(nodes, m, j, k)
  }

  /** Node `m` is named as an iteration that an earlier loop can finish after. */
  ghost predicate LaterKey(nodes: seq<Node>, i: nat, m: nat, k: nat)
    requires i < |nodes| && m < |nodes|
  {
    i < m && Clash(nodes, i, m, k) && k + 1 < nodes[i].maxIterations
  }

  lemma {:induction false} LeastKey(nodes: seq<Node>, m: nat, k: nat) returns (least: nat)
    requires m < |nodes| && EarlierKey(nodes, m, k)
    ensures EarlierKey(nodes, m, least) && forall l: nat :: l < least ==> !EarlierKey(nodes, m, l)
    decreases k
  {
    if l: nat :| l < k && EarlierKey(nodes, m, l) {
      least := LeastKey(nodes, m, l);
    } else {
      least := k;
    }
  }

  /** With the loop's bound cut down to its first bad key, the nodes are well named. */
  lemma EarlierCut(s: Setup)
    requires SetupOk(s) && Declared(s.nodes, s.m) && s.loop == s.m
    requires forall i, k: nat :: 0 <= i < s.m ==> !LaterKey(s.nodes, i, s.m, k)
    requires forall l: nat :: l < s.rounds ==> !EarlierKey(s.nodes, s.m, l)
    ensures WellNamed(Cut(s)) && PureSteps(Cut(s)) && PureSteps(Full(s))
  {
    InstancesAreVariant(s.nodes, s.loop, s.rounds);
    ShapeKeepsNaming(s.nodes, Full(s), s.m);
    CutIsPure(s);
    forall i, j | 0 <= i < j <= s.m
      ensures Cut(s)[i].name != Cut(s)[j].name
    {
      assert Cut(s)[i].name == s.nodes[i].name && Cut(s)[j].name == s.nodes[j].name;
    }
    forall i, j, k: nat | 0 <= i <= s.m && 0 <= j <= s.m && Clash(Cut(s), i, j, k)
      ensures Harmless(Cut(s), i, j, k)
    {
      CutClash(s, i, j, k);
    }
  }

  lemma CutIsPure(s: Setup)
    requires SetupOk(s) && PureSteps(Full(s)) && s.loop == s.m
    ensures PureSteps(Cut(s))
  {
    assert PureNode(Full(s)[s.m]);
    assert PureNode(Cut(s)[s.m]);
  }

  lemma CutClash(s: Setup, i: nat, j: nat, k: nat)
    requires SetupOk(s) && Declared(s.nodes, s.m) && s.loop == s.m && i <= s.m && j <= s.m
    requires forall i, k: nat :: 0 <= i < s.m ==> !LaterKey(s.nodes, i, s.m, k)
    requires forall l: nat :: l < s.rounds ==> !EarlierKey(s.nodes, s.m, l)
    requires Clash(Cut(s), i, j, k)
    ensures Harmless(Cut(s), i, j, k)
  {
    assert Cut(s)[i].name == s.nodes[i].name && Cut(s)[j].name == s.nodes[j].name;
    assert |IterKey(s.nodes[i].name, k)| > |s.nodes[i].name|;
    assert Clash(s.nodes, i, j, k);
    if i < s.m && j < s.m {
      assert Clash(s.nodes[..s.m], i, j, k);
    } else if i < s.m {
      assert !LaterKey(s.nodes, i, s.m, k);
    } else {
      assert EarlierKey(s.nodes, s.m, k);
    }
  }

  lemma EarlierRow(s: Setup, events: seq<Event>, j: nat) returns (value: Value)
    requires Driven(s, events) && Arrived(s, RunIn(s, events)) && ChildFree(Full(s)) && j < s.m
    ensures (s.nodes[j].name, value) in CompletedRows(Exec(Alone(Full(s)), events).journal, 0)
  {
    ArrivalFacts(s, events);
    var run := RunIn(s, events);
    assert Cut(s)[j].name == s.nodes[j].name;
    StoredBefore(Cut(s), s.m, j);
    value := run.state.results[s.nodes[j].name];
    var rows := NodeRows(Cut(s)[j], value);
    assert rows[|rows| - 1] == (s.nodes[j].name, value);
    PastRowsHave(Cut(s), s.m, run.state.results, j, rows[|rows| - 1]);
  }

  lemma {:induction false} StoredBefore(steps: seq<Node>, n: nat, j: nat)
    requires j < n <= |steps|
    ensures steps[j].name in NamesBefore(steps, n)
  {
    if j < n - 1 {
      StoredBefore(steps, n - 1, j);
    }
  }

  /** What becomes of the loop when it finds another node's row under its next key. */
  lemma LoopMisled(s: Setup, journal: seq<JournalRow>, run: Run, ctx: Ctx, attempt: nat, w: World, value: Value)
    requires SetupOk(s) && s.loop == s.m && run.currentStep == s.m && ctx.runId == 0
    requires SlotOf(run.state, s.nodes[s.m].name).iteration == s.rounds
    requires |SlotOf(run.state, s.nodes[s.m].name).results| == s.rounds
    requires var found := Lookup(journal, 0, IterKey(s.nodes[s.m].name, s.rounds));
      found.Some? && found.value.status == RowCompleted && found.value.result == value
    ensures var nr := RunLoop(journal, Full(s)[s.m], ctx, run.state, attempt, w);
      && nr.state.results == run.state.results
      && (nr.outcome.Exhausted?
          || (nr.outcome.NodeDone? && nr.outcome.value != List(Trues(s.rounds))))
  {
    var node := Full(s)[s.m];
    var slot := ReplaySlot(journal, 0, node, run.state);
    assert slot.iteration == s.rounds + 1 && |slot.results| == s.rounds + 1;
    assert node.condition(ctx, slot.iteration, w) == Ok(slot.iteration < s.rounds);
    assert |slot.results| != |Trues(s.rounds)|;
  }

  /** The run is then untruthful: it fails though the loop does not, or it stores a list that is
      too long. */
  lemma MisledRun(s: Setup, run: Run, nr: NodeRun)
    requires SetupOk(s) && ChildFree(Full(s)) && s.loop == s.m && run.currentStep == s.m
    requires ResultsUpTo(Full(s), run.input, 0, Payload, s.m) == Some(run.state.results)
    requires nr.state.results == run.state.results
    requires nr.outcome.Exhausted? || (nr.outcome.NodeDone? && nr.outcome.value != List(Trues(s.rounds)))
    ensures !Truthful(Full(s), ApplyOutcome(run, 0, Full(s)[s.m], nr, []).run, 0, Payload)
  {
    OwnPasses(s.nodes[s.m], s.rounds, run.input, run.state.results, 0);
    var after := ApplyOutcome(run, 0, Full(s)[s.m], nr, []).run;
    if nr.outcome.NodeDone? {
      NotOwn(Full(s), run, after, nr.outcome.value);
    }
  }

  lemma RunsLoop(full: seq<Node>, db: Db)
    requires 0 in db.runs && db.runs[0].currentStep < |full| && full[db.runs[0].currentStep].Loop?
    requires var found := Lookup(db.journal, 0, full[db.runs[0].currentStep].name);
      found.Some? ==> found.value.status == RowFailed
    ensures var run, node := db.runs[0], full[db.runs[0].currentStep];
      var attempt := Attempt(run.state, node.name);
      AdvanceMove(Workflow("w", full), db, 0, HERE).run
        == ApplyOutcome(run, 0, node,
             RunLoop(db.journal, node, Ctx(run.input, run.state.results, 0, attempt), run.state, attempt, HERE), []).run
  {
  }

  /** The loop under the cursor is run: its own name is not journaled as completed. */
  lemma NotJournaled(s: Setup, events: seq<Event>)
    requires Driven(s, events) && Arrived(s, RunIn(s, events)) && s.loop == s.m
    ensures var found := Lookup(Exec(Alone(Full(s)), events).journal, 0, s.nodes[s.m].name);
      found.Some? ==> found.value.status == RowFailed
  {
    DrivenFacts(s, events);
    NodeNotReplayed(Workflow("w", Cut(s)), Exec(Alone(Cut(s)), events), 0);
  }

  /** A loop behind a node that is named as one of its iterations: the engine takes the node's
      result for the iteration. */
  lemma EarlierNodeTaken(nodes: seq<Node>, m: nat, k: nat) returns (steps: seq<Node>, events: seq<Event>)
    requires Declared(nodes, m) && EarlierKey(nodes, m, k)
    requires forall l: nat :: l < k ==> !EarlierKey(nodes, m, l)
    requires forall i, l: nat :: 0 <= i < m ==> !LaterKey(nodes, i, m, l)
    ensures Untruthful(nodes, steps, events)
  {
    var s := Setup(nodes, m, m, k);
    EarlierCut(s);
    InstancesAreVariant(nodes, m, k);
    var start := Drive(s);
    ArrivalFacts(s, start);
    var job := ArrivalJob(s, start);
    LastDelivery(s, start, job);
    MisledMove(s, start);
    steps, events := Full(s), start + [Deliver(job, HERE)];
  }

  lemma MisledMove(s: Setup, events: seq<Event>)
    requires Driven(s, events) && Arrived(s, RunIn(s, events)) && ChildFree(Full(s)) && s.loop == s.m
    requires EarlierKey(s.nodes, s.m, s.rounds)
    ensures var a := Exec(Alone(Full(s)), events);
      0 in a.runs && !Truthful(Full(s), AdvanceMove(Workflow("w", Full(s)), a, 0, HERE).run, 0, Payload)
  {
    ArrivalFacts(s, events);
    var a := Exec(Alone(Full(s)), events);
    var j :| 0 <= j < s.m && Clash(s.nodes, s.m, j, s.rounds);
    var value := EarlierRow(s, events, j);
    LookupGives(a.journal, 0, s.nodes[j].name, value);
    NotJournaled(s, events);
    RunsLoop(Full(s), a);
    var run := a.runs[0];
    var attempt := Attempt(run.state, s.nodes[s.m].name);
    var ctx := Ctx(run.input, run.state.results, 0, attempt);
    LoopMisled(s, a.journal, run, ctx, attempt, HERE, value);
    MisledRun(s, run, RunLoop(a.journal, Full(s)[s.m], ctx, run.state, attempt, HERE));
  }

  // ----- The theorem ----------------------------------------------------------------------------------------------

  lemma {:induction false} FirstBad(nodes: seq<Node>, n: nat) returns (m: nat)
    requires n <= |nodes| && !WellNamed(nodes[..n])
    ensures m < n && WellNamed(nodes[..m]) && !WellNamed(nodes[..m + 1])
  {
    if n > 0 {
      if WellNamed(nodes[..n - 1]) {
        m := n - 1;
      } else {
        m := FirstBad(nodes, n - 1);
      }
    }
  }

  /** The first node that makes a prefix ill named clashes in one of the two ways. */
  lemma BadKinds(nodes: seq<Node>, m: nat)
    requires m < |nodes| && DistinctNames(nodes) && WellNamed(nodes[..m]) && !WellNamed(nodes[..m + 1])
    ensures (exists k: nat :: EarlierKey(nodes, m, k)) || (exists i, k: nat :: 0 <= i < m && LaterKey(nodes, i, m, k))
  {
    var pre := nodes[..m + 1];
    assert DistinctNames(pre);
    var i, j, k: nat :| 0 <= i <= m && 0 <= j <= m && Clash(pre, i, j, k) && !Harmless(pre, i, j, k);
    assert |IterKey(nodes[i].name, k)| > |nodes[i].name|;
    assert Clash(nodes, i, j, k);
    if i < m && j < m {
      assert Clash(nodes[..m], i, j, k);
    } else if i < m {
      assert LaterKey(nodes, i, m, k);
    } else {
      assert EarlierKey(nodes, m, k);
    }
  }

  /** The other direction: an ill-named shape has callbacks, depending on their context only, and
      an exactly-once sequence of events after which a run is untruthful. */
  lemma IllNamedDeviates(nodes: seq<Node>) returns (steps: seq<Node>, events: seq<Event>)
    requires ChildFree(nodes) && DistinctNames(nodes) && RoutesHaveBranches(nodes) && !WellNamed(Reachable(nodes))
    ensures Untruthful(nodes, steps, events)
  {
    ReachableIsPrefix(nodes);
    var m := FirstBad(nodes, |Reachable(nodes)|);
    BadKinds(nodes, m);
    if i, k: nat :| 0 <= i < m && LaterKey(nodes, i, m, k) {
      steps, events := LaterNodeSkipped(nodes, i, m, k);
    } else {
      var k: nat :| EarlierKey(nodes, m, k);
      var least := LeastKey(nodes, m, k);
      steps, events := EarlierNodeTaken(nodes, m, least);
    }
  }

  lemma WellNamedIsSound(nodes: seq<Node>)
    requires WellNamed(Reachable(nodes))
    ensures Sound(nodes) && SoundOnce(nodes)
  {
    forall steps, events, r, signals | Variant(nodes, steps) && Observed(steps, events, r, signals)
      ensures TruthfulRun(steps, events, r, signals)
    {
      ReachableIsPrefix(nodes);
      ReachableIsPrefix(steps);
      ShapeKeepsReach(nodes, steps);
      ShapeKeepsNaming(nodes, steps, |Reachable(nodes)|);
      assert CutAt(steps, Reachable(steps));
      PureReach(steps);
      NamesSuffice(steps, Reachable(steps), events, r, signals);
    }
  }

  lemma PureReach(steps: seq<Node>)
    requires PureSteps(steps)
    ensures PureSteps(Reachable(steps))
  {
    ReachableIsPrefix(steps);
  }

  /** The names that matter. For every declaration without children whose names are unique: the
      engine runs every workflow of that shape as the interpreter does if and only if, among the
      nodes a run can reach, no node is named as an iteration within a loop's bound, except for
      the last iteration of an earlier loop. It makes no difference whether jobs are redelivered. */
  lemma SoundExactlyWhen(nodes: seq<Node>)
    requires ChildFree(nodes) && DistinctNames(nodes) && RoutesHaveBranches(nodes)
    ensures Sound(nodes) <==> WellNamed(Reachable(nodes))
    ensures SoundOnce(nodes) <==> WellNamed(Reachable(nodes))
  {
    if WellNamed(Reachable(nodes)) {
      WellNamedIsSound(nodes);
    } else {
      var steps, events := IllNamedDeviates(nodes);
      assert Variant(nodes, steps) && Observed(steps, events, 0, Payload);
    }
  }

  /** Names without the separator of the iteration keys are always fit. */
  lemma PlainNamesSuffice(nodes: seq<Node>)
    requires DistinctNames(nodes) && forall i :: 0 <= i < |nodes| ==> '#' !in nodes[i].name
    ensures WellNamed(nodes) && WellNamed(Reachable(nodes))
  {
    forall i, j, k: nat | 0 <= i < |nodes| && 0 <= j < |nodes|
      ensures !Clash(nodes, i, j, k)
    {
      assert IterKey(nodes[i].name, k)[|nodes[i].name|] == '#';
    }
    ReachableIsPrefix(nodes);
    PrefixNamed(nodes, |Reachable(nodes)|);
  }

  lemma PrefixNamed(nodes: seq<Node>, n: nat)
    requires WellNamed(nodes) && n <= |nodes|
    ensures WellNamed(nodes[..n])
  {
    forall i, j, k: nat | 0 <= i < n && 0 <= j < n && Clash(nodes[..n], i, j, k)
      ensures Harmless(nodes[..n], i, j, k)
    {
      assert Clash(nodes, i, j, k);
    }
  }
}
