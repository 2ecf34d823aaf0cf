/** A workflow cut off behind the node its runs cannot pass behaves as the whole workflow. */
module DurableSimulation {
  import opened Prelude
  import opened DurableTypes
  import opened DurableSpec
  import opened DurableJournal
  import opened DurableRunInvariant
  import opened DurableReachable
  import opened DurableChange
  import opened DurableBigStep
  import opened DurableShapes

  /** Equal tables, and the same signals accepted. Rollbacks may call different compensators. */
  ghost predicate Same(a: Db, b: Db) {
    && a.runs == b.runs && a.journal == b.journal && a.jobs == b.jobs
    && a.nextRun == b.nextRun && a.nextJob == b.nextJob
    && (forall e: Effect :: e.SignalAccepted? ==> (e in a.log <==> e in b.log))
  }

  /** Every advance that can come next does the same under both workflows. */
  ghost predicate Alike(full: seq<Node>, pre: seq<Node>, db: Db) {
    forall r, w :: r in db.runs && !Terminal(db.runs[r].status) ==>
      AdvanceMove(Workflow("w", full), db, r, w) == AdvanceMove(Workflow("w", pre), db, r, w)
  }

  lemma SameMove(wf: Workflow, a: Db, b: Db, r: RunId, w: World)
    requires Same(a, b) && r in b.runs
    ensures AdvanceMove(wf, a, r, w) == AdvanceMove(wf, b, r, w)
  {
  }

  lemma ApplySame(a: Db, b: Db, r: RunId, moveA: Move, moveB: Move)
    requires Same(a, b) && moveA.(effects := []) == moveB.(effects := [])
    requires moveA.effects == moveB.effects || (AcceptsNothing(moveA.effects) && AcceptsNothing(moveB.effects))
    ensures Same(ApplyMove(a, r, moveA), ApplyMove(b, r, moveB))
  {
    ApplyMoveRuns(a, r, moveA);
    ApplyMoveRuns(b, r, moveB);
    assert moveA.run == moveB.run && moveA.rows == moveB.rows && moveA.wake == moveB.wake && moveA.spawn == moveB.spawn;
  }

  lemma AdvanceSame(full: seq<Node>, pre: seq<Node>, a: Db, b: Db, r: RunId, w: World)
    requires Same(a, b) && Known(Alone(pre), b) && Alike(full, pre, b)
    ensures Same(Advance(Alone(full), a, r, w), Advance(Alone(pre), b, r, w))
  {
    if r in b.runs && !Terminal(b.runs[r].status) {
      SameMove(Workflow("w", full), a, b, r, w);
      var move := AdvanceMove(Workflow("w", pre), b, r, w);
      ApplySame(a, b, r, move, move);
    }
  }

  lemma CompensateSame(full: seq<Node>, pre: seq<Node>, a: Db, b: Db, r: RunId, w: World)
    requires Same(a, b) && Known(Alone(pre), b)
    ensures Same(Compensate(Alone(full), a, r, w), Compensate(Alone(pre), b, r, w))
  {
    if r in b.runs && b.runs[r].status == Compensating {
      var run := b.runs[r];
      var names, ctx := Reverse(CompletedNames(b.journal, r)), Ctx(run.input, run.state.results, r, 1);
      RollbackAcceptsNothing(Workflow("w", full), names, ctx, w);
      RollbackAcceptsNothing(Workflow("w", pre), names, ctx, w);
      ApplySame(a, b, r, CompensateMove(Workflow("w", full), a, r, w), CompensateMove(Workflow("w", pre), b, r, w));
    }
  }

  lemma HandleSame(full: seq<Node>, pre: seq<Node>, a: Db, b: Db, job: Job, w: World)
    requires Same(a, b) && Known(Alone(pre), b) && Alike(full, pre, b)
    ensures Same(Handle(Alone(full), a, job, w), Handle(Alone(pre), b, job, w))
  {
    match job {
      case AdvanceJob(r, _) => AdvanceSame(full, pre, a, b, r, w);
      case CompensateJob(r) => CompensateSame(full, pre, a, b, r, w);
    }
  }

  lemma AlikeWithoutJob(full: seq<Node>, pre: seq<Node>, db: Db, jobs: map<nat, Job>)
    requires Alike(full, pre, db)
    ensures Alike(full, pre, db.(jobs := jobs))
  {
    forall r, w | r in db.runs && !Terminal(db.runs[r].status)
      ensures AdvanceMove(Workflow("w", full), db.(jobs := jobs), r, w)
        == AdvanceMove(Workflow("w", pre), db.(jobs := jobs), r, w)
    {
      QueueIrrelevant(Workflow("w", full), db, jobs, r, w);
      QueueIrrelevant(Workflow("w", pre), db, jobs, r, w);
    }
  }

  lemma NextSame(full: seq<Node>, pre: seq<Node>, a: Db, b: Db, event: Event)
    requires Same(a, b) && Known(Alone(pre), b) && Alike(full, pre, b)
    ensures Same(Next(Alone(full), a, event), Next(Alone(pre), b, event))
  {
    match event {
      case StartEvent(_, _) =>
      case Deliver(job, w) =>
        if job in b.jobs {
          var jobs := b.jobs - {job};
          AlikeWithoutJob(full, pre, b, jobs);
          HandleSame(full, pre, a.(jobs := jobs), b.(jobs := jobs), b.jobs[job], w);
        }
      case Redeliver(stray, w) => HandleSame(full, pre, a, b, stray, w);
      case SignalEvent(r, signal, payload) =>
        var target := SignalTarget(b, r, signal);
        if target.Some? {
          var move := SignalMove(b.runs[r], r, target.value, payload);
          ApplySame(a, b, r, move, move);
        }
    }
  }

  /** Below the cut the two workflows have the same nodes. */
  lemma AlikeBelow(full: seq<Node>, pre: seq<Node>, db: Db)
    requires pre <= full
    requires pre == full || forall r :: r in db.runs && !Terminal(db.runs[r].status) ==> db.runs[r].currentStep < |pre|
    ensures Alike(full, pre, db)
  {
  }

  // ----- Nothing passes a dead loop ---------------------------------------------------------------------

  lemma {:induction false} SameResults(full: seq<Node>, pre: seq<Node>, input: Value, r: RunId,
      signals: string -> Value, n: nat)
    requires ChildFree(full) && pre <= full && n <= |pre|
    ensures ChildFree(pre) && ResultsUpTo(full, input, r, signals, n) == ResultsUpTo(pre, input, r, signals, n)
  {
    if n > 0 {
      SameResults(full, pre, input, r, signals, n - 1);
    }
  }

  lemma DeadStops(pre: seq<Node>, run: Run, r: RunId, signals: string -> Value)
    requires ChildFree(pre) && pre != [] && Dead(pre[|pre| - 1]) && OnCourse(pre, run, r, signals)
    ensures run.currentStep < |pre|
  {
  }

  /** The cut: behind the first dead loop, if there is one. */
  ghost predicate CutAt(full: seq<Node>, pre: seq<Node>) {
    pre <= full && (pre == full || (pre != [] && Dead(pre[|pre| - 1])))
  }

  lemma RunOnCourse(pre: seq<Node>, events: seq<Event>, r: RunId, signals: string -> Value)
    requires WellNamed(pre) && PureSteps(pre) && Observed(pre, events, r, signals)
    ensures OnCourse(pre, Exec(Alone(pre), events).runs[r], r, signals)
  {
    AloneOk(pre);
    ReachableOk(Alone(pre), events);
    ReachableOnCourse(Alone(pre), events, r, signals);
  }

  lemma NonePassesTheCut(full: seq<Node>, pre: seq<Node>, events: seq<Event>)
    requires CutAt(full, pre) && WellNamed(pre) && PureSteps(pre)
    ensures Alike(full, pre, Exec(Alone(pre), events))
  {
    var db := Exec(Alone(pre), events);
    if pre != full {
      forall r | r in db.runs
        ensures db.runs[r].currentStep < |pre|
      {
        AloneOk(pre);
        PayloadsAgree(Alone(pre), events, r);
        RunOnCourse(pre, events, r, Payloads(db.runs[r]));
        DeadStops(pre, db.runs[r], r, Payloads(db.runs[r]));
      }
    }
    AlikeBelow(full, pre, db);
  }

  /** The cut workflow and the whole one have the same tables after any events. */
  lemma {:induction false} Simulates(full: seq<Node>, pre: seq<Node>, events: seq<Event>)
    requires CutAt(full, pre) && WellNamed(pre) && PureSteps(pre)
    ensures Same(Exec(Alone(full), events), Exec(Alone(pre), events))
  {
    if events != [] {
      var init := events[..|events| - 1];
      Simulates(full, pre, init);
      NonePassesTheCut(full, pre, init);
      AloneOk(pre);
      ReachableOk(Alone(pre), init);
      DbOkKnown(Alone(pre), Exec(Alone(pre), init));
      NextSame(full, pre, Exec(Alone(full), init), Exec(Alone(pre), init), events[|events| - 1]);
    }
  }

  lemma SameSignals(a: Db, b: Db, r: RunId, signals: string -> Value)
    requires Same(a, b) && SignalsAgree(a.log, r, signals)
    ensures SignalsAgree(b.log, r, signals)
  {
    forall i | 0 <= i < |b.log| && b.log[i].SignalAccepted? && b.log[i].runId == r
      ensures signals(b.log[i].step) == b.log[i].payload
    {
      assert b.log[i] in a.log;
      var j :| 0 <= j < |a.log| && a.log[j] == b.log[i];
    }
  }

  /** One direction: if the reachable nodes are well named, every run is truthful. */
  lemma NamesSuffice(full: seq<Node>, pre: seq<Node>, events: seq<Event>, r: RunId, signals: string -> Value)
    requires CutAt(full, pre) && WellNamed(pre) && PureSteps(full) && Observed(full, events, r, signals)
    ensures TruthfulRun(full, events, r, signals)
  {
    assert PureSteps(pre);
    Simulates(full, pre, events);
    SameSignals(Exec(Alone(full), events), Exec(Alone(pre), events), r, signals);
    RunOnCourse(pre, events, r, signals);
    AloneOk(pre);
    ReachableOk(Alone(pre), events);
    var run := Exec(Alone(pre), events).runs[r];
    SameResults(full, pre, run.input, r, signals, run.currentStep);
    if pre != full {
      DeadStops(pre, run, r, signals);
    }
  }
}
