/** What the journal invariant means, and how a run evolves, under arbitrary redelivery. */
module DurableHistory {
  import opened Prelude
  import opened DurableTypes
  import opened DurableSpec
  import opened DurableJournal
  import opened DurableRunInvariant
  import opened DurableReachable

  // ----- Journal, cursor and results ----------------------------------------------------------

  /** The rows whose name is in `keep`, in order. */
  function Only(rows: seq<Entry>, keep: set<string>): seq<Entry> {
    if rows == [] then []
    else
      var last := rows[|rows| - 1];
      Only(rows[..|rows| - 1], keep) + (if last.0 in keep then [last] else [])
  }

  function NodeNames(steps: seq<Node>): set<string> {
    NamesBefore(steps, |steps|)
  }

  lemma {:induction false} NodeNameListed(steps: seq<Node>, n: nat, i: nat)
    requires i < n <= |steps|
    ensures steps[i].name in NamesBefore(steps, n)
  {
    if i < n - 1 {
      NodeNameListed(steps, n - 1, i);
    }
  }

  /** No node is named as an iteration of a finished loop. */
  lemma IterKeyNotListed(steps: seq<Node>, i: nat, k: nat)
    requires WellNamed(steps) && i < |steps| && steps[i].Loop? && k < PastBound(steps[i])
    ensures IterKey(steps[i].name, k) !in NodeNames(steps)
  {
    if IterKey(steps[i].name, k) in NodeNames(steps) {
      NamesBeforeHave(steps, |steps|, IterKey(steps[i].name, k));
      var j :| 0 <= j < |steps| && steps[j].name == IterKey(steps[i].name, k);
      NotAnIteration(steps, i, j, k);
    }
  }

  lemma IterRowsOnly(steps: seq<Node>, i: nat, values: seq<Value>)
    requires WellNamed(steps) && i < |steps| && steps[i].Loop?
    ensures Only(IterRows(steps[i].name, Kept(values, PastBound(steps[i]))), NodeNames(steps)) == []
  {
    var rows := IterRows(steps[i].name, Kept(values, PastBound(steps[i])));
    forall k | 0 <= k < |rows|
      ensures rows[k].0 !in NodeNames(steps)
    {
      IterKeyNotListed(steps, i, k);
    }
    OnlyNone(rows, NodeNames(steps));
  }

  /** The row of a loop's very last iteration, after which it can only fail. */
  function LastRow(node: Node, st: State): seq<Entry>
    requires node.Loop?
  {
    var results, last := SlotOf(st, node.name).results, node.maxIterations - 1;
    if 0 <= last < |results| then [(IterKey(node.name, last), results[last])] else []
  }

  lemma LoopRowsSplit(node: Node, st: State)
    requires node.Loop?
    ensures LoopRows(node, st)
      == IterRows(node.name, Kept(SlotOf(st, node.name).results, PastBound(node))) + LastRow(node, st)
  {
  }

  /** That row, if a later node bears its name. */
  function Lookalike(steps: seq<Node>, run: Run): seq<Entry> {
    if run.currentStep < |steps| && steps[run.currentStep].Loop?
    then Only(LastRow(steps[run.currentStep], run.state), NodeNames(steps)) else []
  }

  lemma {:induction false} OnlyAppend(a: seq<Entry>, b: seq<Entry>, keep: set<string>)
    ensures Only(a + b, keep) == Only(a, keep) + Only(b, keep)
  {
    if b == [] {
      NilRight(a);
    } else {
      assert (a + b)[..|a + b| - 1] == a + b[..|b| - 1];
      OnlyAppend(a, b[..|b| - 1], keep);
      Assoc(Only(a, keep), Only(b[..|b| - 1], keep), if b[|b| - 1].0 in keep then [b[|b| - 1]] else []);
    }
  }

  lemma {:induction false} OnlyNone(rows: seq<Entry>, keep: set<string>)
    requires forall i :: 0 <= i < |rows| ==> rows[i].0 !in keep
    ensures Only(rows, keep) == []
  {
    if rows != [] {
      OnlyNone(rows[..|rows| - 1], keep);
    }
  }

  lemma OnlyOne(entry: Entry, keep: set<string>)
    requires entry.0 in keep
    ensures Only([entry], keep) == [entry]
  {
    assert [entry][..0] == [];
  }

  lemma NodeRowsOnly(steps: seq<Node>, i: nat, value: Value)
    requires WellNamed(steps) && i < |steps|
    ensures Only(NodeRows(steps[i], value), NodeNames(steps)) == [(steps[i].name, value)]
  {
    if steps[i].Loop? && value.List? {
      IterRowsOnly(steps, i, value.items);
    }
    NodeNameListed(steps, |steps|, i);
    OnlyOne((steps[i].name, value), NodeNames(steps));
  }

  /** The rows the first `n` nodes must have, one each, in declaration order. */
  function Results(steps: seq<Node>, n: nat, results: map<string, Value>): seq<Entry>
    requires n <= |steps| && NamesBefore(steps, n) <= results.Keys
  {
    if n == 0 then []
    else Results(steps, n - 1, results) + [(steps[n - 1].name, results[steps[n - 1].name])]
  }

  lemma {:induction false} PastRowsOnly(steps: seq<Node>, n: nat, results: map<string, Value>)
    requires WellNamed(steps) && n <= |steps| && NamesBefore(steps, n) <= results.Keys
    ensures Only(PastRows(steps, n, results), NodeNames(steps)) == Results(steps, n, results)
  {
    if n > 0 {
      PastRowsUnfold(steps, n, results);
      PastRowsOnly(steps, n - 1, results);
      OneMoreNode(steps, n - 1, PastRows(steps, n - 1, results), results[steps[n - 1].name]);
    }
  }

  lemma PastRowsUnfold(steps: seq<Node>, n: nat, results: map<string, Value>)
    requires 0 < n <= |steps| && NamesBefore(steps, n) <= results.Keys
    ensures NamesBefore(steps, n - 1) <= results.Keys && steps[n - 1].name in results
    ensures PastRows(steps, n, results)
      == PastRows(steps, n - 1, results) + NodeRows(steps[n - 1], results[steps[n - 1].name])
  {
  }

  lemma OneMoreNode(steps: seq<Node>, i: nat, past: seq<Entry>, value: Value)
    requires WellNamed(steps) && i < |steps|
    ensures Only(past + NodeRows(steps[i], value), NodeNames(steps))
      == Only(past, NodeNames(steps)) + [(steps[i].name, value)]
  {
    NodeRowsOnly(steps, i, value);
    OnlyAppend(past, NodeRows(steps[i], value), NodeNames(steps));
  }

  lemma CurrentRowsOnly(steps: seq<Node>, run: Run)
    requires WellNamed(steps)
    ensures Only(CurrentRows(steps, run), NodeNames(steps)) == Lookalike(steps, run)
  {
    if run.currentStep < |steps| && steps[run.currentStep].Loop? {
      var node := steps[run.currentStep];
      var results := SlotOf(run.state, node.name).results;
      LoopRowsSplit(node, run.state);
      IterRowsOnly(steps, run.currentStep, results);
      OnlyAppend(IterRows(node.name, Kept(results, PastBound(node))), LastRow(node, run.state), NodeNames(steps));
    }
  }

  /** In every reachable database the completed node rows of a run are, in insertion order,
      one row for each of the nodes before the cursor, holding the result stored for it, and
      at most one more: the last iteration of a loop that has used up its bound, if a later node
      bears its key. The results have no other keys; and of the iterations within its bound the
      loop under the cursor has journaled exactly those its slot counts, with the values its slot
      holds. The slot is within the bound unless the run is rolling back. */
  lemma JournalMatchesCursor(reg: Registry, events: seq<Event>, r: RunId)
    requires RegistryOk(reg) && r in Exec(reg, events).runs
    ensures var db := Exec(reg, events);
      var run := db.runs[r];
      && run.workflow in reg
      && var steps, rows := reg[run.workflow].steps, CompletedRows(db.journal, r);
      && run.currentStep <= |steps|
      && run.state.results.Keys == NamesBefore(steps, run.currentStep)
      && Only(rows, NodeNames(steps)) == Results(steps, run.currentStep, run.state.results) + Lookalike(steps, run)
      && (run.currentStep < |steps| && steps[run.currentStep].Loop? ==>
        SlotJournaled(steps[run.currentStep], run, rows))
  {
    ReachableOk(reg, events);
    var db := Exec(reg, events);
    var run := db.runs[r];
    var steps := reg[run.workflow].steps;
    PastRowsOnly(steps, run.currentStep, run.state.results);
    CurrentRowsOnly(steps, run);
    OnlyAppend(PastRows(steps, run.currentStep, run.state.results), CurrentRows(steps, run), NodeNames(steps));
    if run.currentStep < |steps| && steps[run.currentStep].Loop? {
      LoopRowsAreCurrent(steps, run, CompletedRows(db.journal, r));
    }
  }

  /** The journal and the loop's slot agree on every iteration within the bound. */
  ghost predicate SlotJournaled(node: Node, run: Run, rows: seq<Entry>)
    requires node.Loop?
  {
    var slot := SlotOf(run.state, node.name);
    && slot.iteration == |slot.results|
    && (InBound(node, run.state) || run.status in {Compensating, Failed})
    && (forall k: nat, v :: k < node.maxIterations ==>
          ((IterKey(node.name, k), v) in rows <==> k < slot.iteration && v == slot.results[k]))
  }

  lemma LoopRowsAreCurrent(steps: seq<Node>, run: Run, rows: seq<Entry>)
    requires WellNamed(steps) && RunOk(steps, run, rows)
    requires run.currentStep < |steps| && steps[run.currentStep].Loop?
    ensures SlotJournaled(steps[run.currentStep], run, rows)
  {
    var node := steps[run.currentStep];
    var slot := SlotOf(run.state, node.name);
    forall k: nat, v | k < node.maxIterations
      ensures (IterKey(node.name, k), v) in rows <==> k < slot.iteration && v == slot.results[k]
    {
      LoopRow(steps, run, rows, k, v);
    }
  }

  lemma LoopRow(steps: seq<Node>, run: Run, rows: seq<Entry>, k: nat, v: Value)
    requires WellNamed(steps) && RunOk(steps, run, rows)
    requires run.currentStep < |steps| && steps[run.currentStep].Loop? && k < steps[run.currentStep].maxIterations
    ensures var name := steps[run.currentStep].name;
      var slot := SlotOf(run.state, name);
      (IterKey(name, k), v) in rows <==> k < slot.iteration && v == slot.results[k]
  {
    var node := steps[run.currentStep];
    var slot := SlotOf(run.state, node.name);
    var entry := (IterKey(node.name, k), v);
    var current := CurrentRows(steps, run);
    EarlierNodeOtherKey(steps, run.currentStep, run.state.results, entry, k);
    if entry in current {
      var i :| 0 <= i < |current| && current[i] == entry;
      IterKeyInjective(node.name, i, node.name, k);
    }
    if k < slot.iteration && v == slot.results[k] {
      assert current[k] == entry;
    }
  }

  /** No node before the cursor has a row under a key the cursor's loop can reach. */
  lemma EarlierNodeOtherKey(steps: seq<Node>, n: nat, results: map<string, Value>, entry: Entry, k: nat)
    requires WellNamed(steps) && n < |steps| && steps[n].Loop? && NamesBefore(steps, n) <= results.Keys
    requires k < steps[n].maxIterations && entry.0 == IterKey(steps[n].name, k)
    ensures entry !in PastRows(steps, n, results)
  {
    if entry in PastRows(steps, n, results) {
      PastRowNames(steps, n, results, entry);
      var i :| 0 <= i < n && NamedBy(steps[i], PastBound(steps[i]), entry.0);
      assert NamedBy(steps[n], steps[n].maxIterations, entry.0);
      SeparateNodes(steps, i, n, entry.0);
    }
  }

  // ----- At most one completed row per node and per iteration -------------------------------------

  ghost predicate DistinctRows(rows: seq<Entry>) {
    forall i, j :: 0 <= i < j < |rows| ==> rows[i].0 != rows[j].0
  }

  lemma NodeRowsDistinct(node: Node, value: Value)
    ensures DistinctRows(NodeRows(node, value))
  {
    var rows := NodeRows(node, value);
    forall i, j | 0 <= i < j < |rows|
      ensures rows[i].0 != rows[j].0
    {
      if j < |rows| - 1 {
        if rows[i].0 == rows[j].0 {
          IterKeyInjective(node.name, i, node.name, j);
        }
      } else {
        assert |IterKey(node.name, i)| > |node.name|;
      }
    }
  }

  lemma IterRowsDistinct(name: string, values: seq<Value>)
    ensures DistinctRows(IterRows(name, values))
  {
    forall i, j | 0 <= i < j < |values|
      ensures IterKey(name, i) != IterKey(name, j)
    {
      if IterKey(name, i) == IterKey(name, j) {
        IterKeyInjective(name, i, name, j);
      }
    }
  }

  lemma JoinDistinct(steps: seq<Node>, n: nat, results: map<string, Value>, more: seq<Entry>)
    requires WellNamed(steps) && n < |steps| && NamesBefore(steps, n) <= results.Keys
    requires DistinctRows(PastRows(steps, n, results)) && DistinctRows(more)
    requires forall i :: 0 <= i < |more| ==>
      NamedBy(steps[n], LoopBound(steps[n]), more[i].0)
    ensures DistinctRows(PastRows(steps, n, results) + more)
  {
    var past := PastRows(steps, n, results);
    forall i, j | 0 <= i < |past| && 0 <= j < |more|
      ensures past[i].0 != more[j].0
    {
      if past[i].0 == more[j].0 {
        PastRowNames(steps, n, results, past[i]);
        var m :| 0 <= m < n && NamedBy(steps[m], PastBound(steps[m]), past[i].0);
        SeparateNodes(steps, m, n, past[i].0);
      }
    }
  }

  lemma RowsNamed(node: Node, values: seq<Value>, bound: int)
    requires node.Loop? && bound <= node.maxIterations
    ensures var rows := IterRows(node.name, Kept(values, bound));
      forall i :: 0 <= i < |rows| ==> NamedBy(node, node.maxIterations, rows[i].0)
  {
    var rows := IterRows(node.name, Kept(values, bound));
    forall i | 0 <= i < |rows|
      ensures NamedBy(node, node.maxIterations, rows[i].0)
    {
      IterRowsNamed(node, values, bound, rows[i]);
    }
  }

  lemma {:induction false} PastRowsDistinct(steps: seq<Node>, n: nat, results: map<string, Value>)
    requires WellNamed(steps) && n <= |steps| && NamesBefore(steps, n) <= results.Keys
    ensures DistinctRows(PastRows(steps, n, results))
  {
    if n > 0 {
      PastRowsDistinct(steps, n - 1, results);
      var node, value := steps[n - 1], results[steps[n - 1].name];
      NodeRowsDistinct(node, value);
      if node.Loop? && value.List? {
        RowsNamed(node, value.items, PastBound(node));
      }
      JoinDistinct(steps, n - 1, results, NodeRows(node, value));
    }
  }

  lemma RunRowsDistinct(steps: seq<Node>, run: Run, rows: seq<Entry>)
    requires WellNamed(steps) && RunOk(steps, run, rows)
    ensures DistinctRows(rows)
  {
    PastRowsDistinct(steps, run.currentStep, run.state.results);
    if run.currentStep < |steps| {
      var node := steps[run.currentStep];
      if node.Loop? {
        var results := SlotOf(run.state, node.name).results;
        IterRowsDistinct(node.name, Kept(results, node.maxIterations));
        RowsNamed(node, results, node.maxIterations);
      }
      JoinDistinct(steps, run.currentStep, run.state.results, CurrentRows(steps, run));
    } else {
      NilRight(PastRows(steps, run.currentStep, run.state.results));
    }
  }

  /** However often jobs are redelivered, no node and no loop iteration of a run is ever
      journaled as completed twice. */
  lemma CompletedAtMostOnce(reg: Registry, events: seq<Event>, r: RunId, i: nat, j: nat)
    requires RegistryOk(reg)
    requires var rows := Exec(reg, events).journal;
      && i < j < |rows| && rows[i].runId == r && rows[j].runId == r
      && rows[i].status == RowCompleted && rows[j].status == RowCompleted
    ensures Exec(reg, events).journal[i].stepName != Exec(reg, events).journal[j].stepName
  {
    ReachableOk(reg, events);
    var db := Exec(reg, events);
    RunRowsDistinct(reg[db.runs[r].workflow].steps, db.runs[r], CompletedRows(db.journal, r));
    TwoRows(db.journal, r, i, j);
  }

  lemma TwoRows(journal: seq<JournalRow>, r: RunId, i: nat, j: nat)
    requires i < j < |journal| && journal[i].runId == r && journal[j].runId == r
    requires journal[i].status == RowCompleted && journal[j].status == RowCompleted
    requires DistinctRows(CompletedRows(journal, r))
    ensures journal[i].stepName != journal[j].stepName
  {
    var a, b, c := journal[..i + 1], journal[i + 1..j + 1], journal[j + 1..];
    assert journal == (a + b) + c;
    CompletedRowsAppend(a + b, c, r);
    CompletedRowsAppend(a, b, r);
    assert a[..|a| - 1] == journal[..i] && a[|a| - 1] == journal[i];
    assert b[|b| - 1] == journal[j];
    var p, q := CompletedRows(a, r), CompletedRows(b, r);
    var rows := CompletedRows(journal, r);
    assert p[|p| - 1] == (journal[i].stepName, journal[i].result);
    assert q[|q| - 1] == (journal[j].stepName, journal[j].result);
    assert rows[|p| - 1] == p[|p| - 1];
    assert rows[|p| + |q| - 1] == q[|q| - 1];
  }

  // ----- The cursor never goes back; completed and failed are final -----------------------------------

  ghost predicate Later(before: Run, after: Run) {
    && before.workflow == after.workflow && before.input == after.input
    && before.currentStep <= after.currentStep
    && (Terminal(before.status) ==> after == before)
  }

  lemma OutcomeLater(run: Run, runId: RunId, node: Node, nr: NodeRun, effects: seq<Effect>)
    requires !Terminal(run.status)
    ensures Later(run, ApplyOutcome(run, runId, node, nr, effects).run)
  {
  }

  lemma AdvanceLater(reg: Registry, db: Db, runId: RunId, w: World, r: RunId)
    requires KeysOk(db) && r in db.runs
    ensures r in Advance(reg, db, runId, w).runs && Later(db.runs[r], Advance(reg, db, runId, w).runs[r])
  {
    if AdvanceError(reg, db, runId, w) == None && !Terminal(db.runs[runId].status) {
      var wf := reg[db.runs[runId].workflow];
      var move := AdvanceMove(wf, db, runId, w);
      ApplyMoveRuns(db, runId, move);
      var run := db.runs[runId];
      if run.currentStep < |wf.steps| {
        var node := wf.steps[run.currentStep];
        var attempt := Attempt(run.state, node.name);
        var nr := RunNode(db, node, Ctx(run.input, run.state.results, runId, attempt), run.state, attempt, w);
        OutcomeLater(run, runId, node, nr, if nr.spawn.Some? then [ChildStarted(runId, node.name, db.nextRun)] else []);
      }
    }
  }

  lemma NextLater(reg: Registry, db: Db, event: Event, r: RunId)
    requires KeysOk(db) && r in db.runs
    ensures r in Next(reg, db, event).runs && Later(db.runs[r], Next(reg, db, event).runs[r])
  {
    match event {
      case StartEvent(workflow, input) =>
      case Deliver(job, w) =>
        if job in db.jobs {
          HandleLater(reg, db.(jobs := db.jobs - {job}), db.jobs[job], w, r);
        }
      case Redeliver(stray, w) => HandleLater(reg, db, stray, w, r);
      case SignalEvent(runId, signal, payload) =>
        var target := SignalTarget(db, runId, signal);
        if target.Some? {
          ApplyMoveRuns(db, runId, SignalMove(db.runs[runId], runId, target.value, payload));
        }
    }
  }

  lemma HandleLater(reg: Registry, db: Db, job: Job, w: World, r: RunId)
    requires KeysOk(db) && r in db.runs
    ensures r in Handle(reg, db, job, w).runs && Later(db.runs[r], Handle(reg, db, job, w).runs[r])
  {
    match job {
      case AdvanceJob(runId, _) => AdvanceLater(reg, db, runId, w, r);
      case CompensateJob(runId) =>
        if CompensateError(reg, db, runId) == None && db.runs[runId].status == Compensating {
          ApplyMoveRuns(db, runId, CompensateMove(reg[db.runs[runId].workflow], db, runId, w));
        }
    }
  }

  /** From any reachable database on, a run's cursor never decreases, its workflow and input
      never change, and once completed or failed its row never changes again. */
  lemma {:induction false} RunsOnlyMoveForward(reg: Registry, events: seq<Event>, more: seq<Event>, r: RunId)
    requires RegistryOk(reg) && r in Exec(reg, events).runs
    ensures r in Exec(reg, events + more).runs
    ensures Later(Exec(reg, events).runs[r], Exec(reg, events + more).runs[r])
  {
    if more == [] {
      NilRight(events);
    } else {
      var init := more[..|more| - 1];
      assert (events + more)[..|events + more| - 1] == events + init;
      RunsOnlyMoveForward(reg, events, init, r);
      ReachableOk(reg, events + init);
      NextLater(reg, Exec(reg, events + init), more[|more| - 1], r);
    }
  }
}
