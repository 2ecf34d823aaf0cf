/** Journal, cursor and results agree in every reachable state, whatever is redelivered. */
module DurableJournal {
  import opened Prelude
  import opened DurableTypes
  import opened DurableSpec

  // ----- What the builder and the registry guarantee --------------------------------------

  /** Node `j` is named as the journal key of an iteration that loop `i` can reach. */
  predicate Clash(steps: seq<Node>, i: nat, j: nat, k: nat)
    requires i < |steps| && j < |steps|
  {
    steps[i].Loop? && k < steps[i].maxIterations && steps[j].name == IterKey(steps[i].name, k)
  }

  /** A loop that reaches its last iteration fails, so no later node is reached. */
  predicate Harmless(steps: seq<Node>, i: nat, j: nat, k: nat)
    requires i < |steps| && steps[i].Loop?
  {
    i < j && k + 1 == steps[i].maxIterations
  }

  /** Names are unique, and no node is named as an iteration key that matters. `DurableNaming`
      proves that this is exactly what the engine needs. */
  ghost predicate WellNamed(steps: seq<Node>) {
    && DistinctNames(steps)
    && (forall i, j, k: nat :: 0 <= i < |steps| && 0 <= j < |steps| && Clash(steps, i, j, k) ==>
      Harmless(steps, i, j, k))
  }

  /** Every child a node may start is registered, and polling delays are not negative. */
  ghost predicate ChildrenKnown(reg: Registry, steps: seq<Node>) {
    forall i :: 0 <= i < |steps| && steps[i].ChildWorkflow? ==>
      && steps[i].pollIntervalSec >= 0.0
      && (forall c: Ctx, w: World :: steps[i].start(c, w).Ok? ==> steps[i].start(c, w).value.workflow in reg)
  }

  ghost predicate RegistryOk(reg: Registry) {
    forall name :: name in reg ==> WellNamed(reg[name].steps) && ChildrenKnown(reg, reg[name].steps)
  }

  // ----- The journal a run must have -------------------------------------------------------

  type Entry = (string, Value)

  /** The run's completed rows in insertion order. */
  function CompletedRows(journal: seq<JournalRow>, runId: RunId): seq<Entry> {
    if journal == [] then []
    else
      var row := journal[|journal| - 1];
      CompletedRows(journal[..|journal| - 1], runId)
      + (if row.runId == runId && row.status == RowCompleted then [(row.stepName, row.result)] else [])
  }

  function IterRows(name: string, values: seq<Value>): seq<Entry> {
    seq(|values|, i requires 0 <= i < |values| => (IterKey(name, i), values[i]))
  }

  /** The first `bound` values. */
  function Kept(values: seq<Value>, bound: int): seq<Value> {
    if bound <= 0 then [] else if |values| <= bound then values else values[..bound]
  }

  /** A finished loop has stopped short of its bound. */
  function NodeRows(node: Node, value: Value): seq<Entry> {
    (if node.Loop? && value.List? then IterRows(node.name, Kept(value.items, node.maxIterations - 1)) else [])
    + [(node.name, value)]
  }

  function NamesBefore(steps: seq<Node>, n: nat): set<string>
    requires n <= |steps|
  {
    if n == 0 then {} else NamesBefore(steps, n - 1) + {steps[n - 1].name}
  }

  function PastRows(steps: seq<Node>, n: nat, results: map<string, Value>): seq<Entry>
    requires n <= |steps|
    requires NamesBefore(steps, n) <= results.Keys
  {
    if n == 0 then []
    else
      PastRows(steps, n - 1, results) + NodeRows(steps[n - 1], results[steps[n - 1].name])
  }

  /** The iterations of the loop under the cursor. Past its bound a slot may have picked up
      values of other nodes, but then the loop is failing. */
  function CurrentRows(steps: seq<Node>, run: Run): seq<Entry> {
    if run.currentStep < |steps| && steps[run.currentStep].Loop? then LoopRows(steps[run.currentStep], run.state)
      else []
  }

  function LoopRows(node: Node, st: State): seq<Entry>
    requires node.Loop?
  {
    IterRows(node.name, Kept(SlotOf(st, node.name).results, node.maxIterations))
  }

  predicate InBound(node: Node, st: State) {
    node.Loop? ==> SlotOf(st, node.name).iteration == 0 || SlotOf(st, node.name).iteration <= node.maxIterations
  }

  // ----- The invariant of one run ----------------------------------------------------------

  /** Bookkeeping exists only for the node under the cursor, and only of its own kind. */
  ghost predicate ShapeOk(steps: seq<Node>, run: Run)
    requires run.currentStep <= |steps|
  {
    var st := run.state;
    if run.currentStep == |steps| then
      st == EMPTY_STATE.(results := st.results)
    else
      var node := steps[run.currentStep];
      && st.stepAttempts.Keys <= (if Retried(node) then {node.name} else {})
      && st.loopState.Keys <= (if node.Loop? then {node.name} else {})
      && st.childRunIds.Keys <= (if node.ChildWorkflow? then {node.name} else {})
      && st.sleepMarks.Keys <= (if node.Sleep? then {node.name} else {})
      && (st.awaitingSignals == []
          || (node.WaitForSignal? && |st.awaitingSignals| == 1 && st.awaitingSignals[0].0 == node.name))
      && SlotOf(st, node.name).iteration == |SlotOf(st, node.name).results|
  }

  predicate Retried(node: Node) {
    node.Step? || node.Parallel? || node.Route? || node.Loop?
  }

  predicate AtSignal(steps: seq<Node>, run: Run) {
    run.currentStep < |steps| && steps[run.currentStep].WaitForSignal?
  }

  ghost predicate StatusOk(steps: seq<Node>, run: Run) {
    && (run.status == Completed ==> run.currentStep == |steps| && run.result == Some(run.state.results))
    && (run.status != Completed ==> run.result == None)
    && (run.status in {Waiting, Compensating, Failed} ==> run.currentStep < |steps|)
    && (run.currentStep < |steps| && run.status !in {Compensating, Failed} ==>
          InBound(steps[run.currentStep], run.state))
    && (run.status in {Compensating, Failed} ==> run.error.Some?)
    && (run.state.awaitingSignals != [] <==> run.status == Waiting && AtSignal(steps, run))
  }

  ghost predicate RunOk(steps: seq<Node>, run: Run, rows: seq<Entry>) {
    && run.currentStep <= |steps|
    && run.state.results.Keys == NamesBefore(steps, run.currentStep)
    && rows == PastRows(steps, run.currentStep, run.state.results) + CurrentRows(steps, run)
    && ShapeOk(steps, run)
    && StatusOk(steps, run)
  }

  // ----- Facts about rows and keys ---------------------------------------------------------

  lemma {:induction false} CompletedRowsAppend(a: seq<JournalRow>, b: seq<JournalRow>, runId: RunId)
    ensures CompletedRows(a + b, runId) == CompletedRows(a, runId) + CompletedRows(b, runId)
  {
    if b == [] {
      assert a + b == a;
    } else {
      var last := |b| - 1;
      assert (a + b)[..|a + b| - 1] == a + b[..last];
      CompletedRowsAppend(a, b[..last], runId);
    }
  }

  lemma {:induction false} OtherRunsRows(rows: seq<JournalRow>, runId: RunId)
    requires forall i :: 0 <= i < |rows| ==> rows[i].runId != runId
    ensures CompletedRows(rows, runId) == []
  {
    if rows != [] {
      OtherRunsRows(rows[..|rows| - 1], runId);
    }
  }

  lemma {:induction false} LookupFindsRow(journal: seq<JournalRow>, runId: RunId, name: string)
    requires Lookup(journal, runId, name).Some?
    requires Lookup(journal, runId, name).value.status == RowCompleted
    ensures (name, Lookup(journal, runId, name).value.result) in CompletedRows(journal, runId)
  {
    CompletedRowsAppend(journal[..1], journal[1..], runId);
    assert journal[..1] + journal[1..] == journal;
    var head := journal[..1];
    assert head[..0] == [];
    if journal[0].runId == runId && journal[0].stepName == name {
      assert CompletedRows(head, runId) == [(name, journal[0].result)];
      assert (name, journal[0].result) in CompletedRows(head, runId);
    } else {
      LookupFindsRow(journal[1..], runId, name);
    }
  }

  lemma LongerNameOtherKey(a: string, i: nat, b: string, j: nat)
    requires |a| < |b|
    ensures IterKey(a, i) != IterKey(b, j)
  {
    NatTextDigits(i);
    var s, t := IterKey(a, i), IterKey(b, j);
    if |s| == |t| {
      assert s[|b|] == NatText(i)[|b| - |a| - 1];
      assert t[|b|] == '#';
    }
  }

  lemma IterKeyInjective(a: string, i: nat, b: string, j: nat)
    requires IterKey(a, i) == IterKey(b, j)
    ensures a == b && i == j
  {
    if |a| < |b| {
      LongerNameOtherKey(a, i, b, j);
    } else if |b| < |a| {
      LongerNameOtherKey(b, j, a, i);
    } else {
      var s, t := IterKey(a, i), IterKey(b, j);
      assert s[..|a|] == a && t[..|b|] == b;
      assert s[|a| + 1..] == NatText(i) && t[|b| + 1..] == NatText(j);
      NatTextInjective(i, j);
    }
  }

  /** The names a node's journal rows can carry after at most `bound` iterations. */
  ghost predicate NamedBy(node: Node, bound: int, name: string) {
    name == node.name || (node.Loop? && exists k: nat :: k < bound && name == IterKey(node.name, k))
  }

  /** The iterations of a loop that the cursor has passed. */
  function PastBound(node: Node): int {
    if node.Loop? then node.maxIterations - 1 else 0
  }

  function LoopBound(node: Node): int {
    if node.Loop? then node.maxIterations else 0
  }

  lemma IterRowsNamed(node: Node, values: seq<Value>, bound: int, entry: Entry)
    requires node.Loop? && entry in IterRows(node.name, Kept(values, bound))
    ensures NamedBy(node, bound, entry.0)
  {
    var rows := IterRows(node.name, Kept(values, bound));
    var k :| 0 <= k < |rows| && rows[k] == entry;
    assert k < bound && entry.0 == IterKey(node.name, k);
  }

  lemma {:induction false} PastRowNames(steps: seq<Node>, n: nat, results: map<string, Value>, entry: Entry)
    requires n <= |steps| && NamesBefore(steps, n) <= results.Keys
    requires entry in PastRows(steps, n, results)
    ensures exists i :: 0 <= i < n && NamedBy(steps[i], PastBound(steps[i]), entry.0)
  {
    if entry in PastRows(steps, n - 1, results) {
      PastRowNames(steps, n - 1, results, entry);
    } else {
      var node, value := steps[n - 1], results[steps[n - 1].name];
      if entry != (node.name, value) {
        IterRowsNamed(node, value.items, PastBound(node), entry);
      }
      assert NamedBy(node, PastBound(node), entry.0);
    }
  }

  lemma NotAnIteration(steps: seq<Node>, i: nat, j: nat, k: nat)
    requires WellNamed(steps) && i < |steps| && j < |steps|
    requires steps[i].Loop? && k < steps[i].maxIterations && !Harmless(steps, i, j, k)
    ensures steps[j].name != IterKey(steps[i].name, k)
  {
    var clash := Clash(steps, i, j, k);
  }

  /** A name of an earlier node's rows is not one of a later node's. */
  lemma SeparateNodes(steps: seq<Node>, i: nat, j: nat, name: string)
    requires WellNamed(steps) && i < j < |steps|
    ensures !(NamedBy(steps[i], PastBound(steps[i]), name) && NamedBy(steps[j], LoopBound(steps[j]), name))
  {
    if NamedBy(steps[i], PastBound(steps[i]), name) && NamedBy(steps[j], LoopBound(steps[j]), name) {
      if name == steps[i].name {
        var l: nat :| l < steps[j].maxIterations && name == IterKey(steps[j].name, l);
        NotAnIteration(steps, j, i, l);
      } else {
        var k: nat :| k < PastBound(steps[i]) && name == IterKey(steps[i].name, k);
        if name == steps[j].name {
          NotAnIteration(steps, i, j, k);
        } else {
          var l: nat :| name == IterKey(steps[j].name, l);
          IterKeyInjective(steps[i].name, k, steps[j].name, l);
        }
      }
    }
  }

  /** The node under the cursor has no completed row yet. */
  lemma NothingJournaledYet(steps: seq<Node>, run: Run, rows: seq<Entry>, value: Value)
    requires WellNamed(steps) && RunOk(steps, run, rows) && run.currentStep < |steps|
    ensures (steps[run.currentStep].name, value) !in rows
  {
    var node := steps[run.currentStep];
    if (node.name, value) in PastRows(steps, run.currentStep, run.state.results) {
      PastRowNames(steps, run.currentStep, run.state.results, (node.name, value));
      var i :| 0 <= i < run.currentStep && NamedBy(steps[i], PastBound(steps[i]), node.name);
      SeparateNodes(steps, i, run.currentStep, node.name);
    }
  }

  /** Nor has its next iteration, as long as there is one to run. */
  lemma IterationNotJournaled(steps: seq<Node>, run: Run, rows: seq<Entry>, value: Value)
    requires WellNamed(steps) && RunOk(steps, run, rows)
    requires run.currentStep < |steps| && steps[run.currentStep].Loop?
    requires SlotOf(run.state, steps[run.currentStep].name).iteration < steps[run.currentStep].maxIterations
    ensures var name := steps[run.currentStep].name;
      (IterKey(name, SlotOf(run.state, name).iteration), value) !in rows
  {
    var node := steps[run.currentStep];
    var slot := SlotOf(run.state, node.name);
    var key := IterKey(node.name, slot.iteration);
    assert NamedBy(node, node.maxIterations, key);
    if (key, value) in PastRows(steps, run.currentStep, run.state.results) {
      PastRowNames(steps, run.currentStep, run.state.results, (key, value));
      var i :| 0 <= i < run.currentStep && NamedBy(steps[i], PastBound(steps[i]), key);
      SeparateNodes(steps, i, run.currentStep, key);
    }
    if (key, value) in CurrentRows(steps, run) {
      var k :| 0 <= k < |slot.results| && key == IterKey(node.name, k);
      IterKeyInjective(node.name, slot.iteration, node.name, k);
    }
  }

  /** Adding a result under a new name leaves the rows of earlier nodes unchanged. */
  lemma {:induction false} PastRowsFrame(steps: seq<Node>, n: nat, results: map<string, Value>, name: string, v: Value)
    requires n <= |steps| && NamesBefore(steps, n) <= results.Keys
    requires name !in NamesBefore(steps, n)
    ensures NamesBefore(steps, n) <= results[name := v].Keys
    ensures PastRows(steps, n, results[name := v]) == PastRows(steps, n, results)
  {
    if n > 0 {
      PastRowsFrame(steps, n - 1, results, name, v);
    }
  }

  lemma {:induction false} NamesBeforeHave(steps: seq<Node>, n: nat, name: string)
    requires n <= |steps| && name in NamesBefore(steps, n)
    ensures exists i :: 0 <= i < n && steps[i].name == name
  {
    if name != steps[n - 1].name {
      NamesBeforeHave(steps, n - 1, name);
    }
  }

  lemma CursorNameIsNew(steps: seq<Node>, n: nat)
    requires WellNamed(steps) && n < |steps|
    ensures steps[n].name !in NamesBefore(steps, n)
  {
    if steps[n].name in NamesBefore(steps, n) {
      NamesBeforeHave(steps, n, steps[n].name);
    }
  }

  lemma OneRow(row: JournalRow, runId: RunId)
    ensures CompletedRows([row], runId)
      == if row.runId == runId && row.status == RowCompleted then [(row.stepName, row.result)] else []
  {
    assert [row][..0] == [];
  }
}
