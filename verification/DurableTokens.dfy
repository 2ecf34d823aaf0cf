/** One token: with exactly-once delivery a run has exactly the one pending job its status
    calls for, so no unfinished run is stranded and a rollback cannot be interrupted. */
module DurableTokens {
  import opened Prelude
  import opened DurableTypes
  import opened DurableSpec
  import opened DurableJournal
  import opened DurableRunInvariant
  import opened DurableReachable

  datatype Token = NoToken | AdvanceToken | CompensateToken

  /** The job a run in this status waits for. A run parked on a signal waits for none. */
  function Needed(steps: seq<Node>, run: Run): Token {
    match run.status
    case Pending => AdvanceToken
    case Running => AdvanceToken
    case Waiting => if AtSignal(steps, run) then NoToken else AdvanceToken
    case Compensating => CompensateToken
    case Completed => NoToken
    case Failed => NoToken
  }

  function JobsOf(jobs: map<nat, Job>, r: RunId): set<nat> {
    set j | j in jobs && jobs[j].runId == r
  }

  ghost predicate HasToken(jobs: map<nat, Job>, r: RunId, token: Token) {
    match token
    case NoToken => JobsOf(jobs, r) == {}
    case AdvanceToken => exists j :: j in jobs && jobs[j].AdvanceJob? && JobsOf(jobs, r) == {j}
    case CompensateToken => exists j :: j in jobs && jobs[j].CompensateJob? && JobsOf(jobs, r) == {j}
  }

  ghost predicate TokensOk(reg: Registry, db: Db) {
    forall r :: r in db.runs && db.runs[r].workflow in reg ==>
      HasToken(db.jobs, r, Needed(reg[db.runs[r].workflow].steps, db.runs[r]))
  }

  ghost predicate OthersHaveTokens(reg: Registry, db: Db, r: RunId) {
    forall q :: q in db.runs && q != r && db.runs[q].workflow in reg ==>
      HasToken(db.jobs, q, Needed(reg[db.runs[q].workflow].steps, db.runs[q]))
  }

  // ----- The queue ---------------------------------------------------------------------------------

  lemma JobAdded(jobs: map<nat, Job>, n: nat, job: Job, r: RunId)
    requires n !in jobs
    ensures JobsOf(jobs[n := job], r) == if job.runId == r then JobsOf(jobs, r) + {n} else JobsOf(jobs, r)
  {
  }

  lemma JobTaken(jobs: map<nat, Job>, n: nat, r: RunId)
    requires n in jobs
    ensures JobsOf(jobs - {n}, r) == JobsOf(jobs, r) - {n}
  {
  }

  lemma OtherTokenKept(jobs: map<nat, Job>, n: nat, job: Job, r: RunId, token: Token)
    requires n !in jobs && job.runId != r && HasToken(jobs, r, token)
    ensures HasToken(jobs[n := job], r, token)
  {
    JobAdded(jobs, n, job, r);
    if token != NoToken {
      var j :| JobsOf(jobs, r) == {j} && j in jobs && jobs[j].AdvanceJob? == token.AdvanceToken?;
      assert j in jobs[n := job] && jobs[n := job][j] == jobs[j];
    }
  }

  lemma OtherTokenLeft(jobs: map<nat, Job>, n: nat, r: RunId, token: Token)
    requires n in jobs && jobs[n].runId != r && HasToken(jobs, r, token)
    ensures HasToken(jobs - {n}, r, token)
  {
    JobTaken(jobs, n, r);
    if token != NoToken {
      var j :| JobsOf(jobs, r) == {j} && j in jobs && jobs[j].AdvanceJob? == token.AdvanceToken?;
      assert j in jobs - {n} && (jobs - {n})[j] == jobs[j];
    }
  }

  lemma TokenPut(jobs: map<nat, Job>, n: nat, job: Job)
    requires n !in jobs && JobsOf(jobs, job.runId) == {}
    ensures HasToken(jobs[n := job], job.runId, if job.AdvanceJob? then AdvanceToken else CompensateToken)
  {
    JobAdded(jobs, n, job, job.runId);
    assert jobs[n := job][n] == job;
  }

  // ----- A move hands on the token it took -------------------------------------------------------------

  predicate WakeMatches(steps: seq<Node>, move: Move) {
    match Needed(steps, move.run)
    case NoToken => move.wake.NoWake?
    case AdvanceToken => move.wake.WakeAdvance?
    case CompensateToken => move.wake.WakeCompensate?
  }

  lemma OutcomeWake(steps: seq<Node>, run: Run, runId: RunId, nr: NodeRun, effects: seq<Effect>)
    requires run.currentStep < |steps| && run.status in {Pending, Running, Waiting}
    requires nr.outcome.Parked? ==> (nr.outcome.wakeAfter == None <==> steps[run.currentStep].WaitForSignal?)
    requires nr.outcome.Retry? ==> Retried(steps[run.currentStep])
    ensures WakeMatches(steps, ApplyOutcome(run, runId, steps[run.currentStep], nr, effects))
  {
  }

  lemma AdvanceWake(wf: Workflow, db: Db, r: RunId, w: World)
    requires r in db.runs && WellNamed(wf.steps) && db.runs[r].status in {Pending, Running, Waiting}
    requires RunOk(wf.steps, db.runs[r], CompletedRows(db.journal, r))
    ensures WakeMatches(wf.steps, AdvanceMove(wf, db, r, w))
  {
    var run := db.runs[r];
    if run.currentStep < |wf.steps| {
      NodeNotReplayed(wf, db, r);
      var node := wf.steps[run.currentStep];
      var attempt := Attempt(run.state, node.name);
      var ctx := Ctx(run.input, run.state.results, r, attempt);
      NodeWake(db, node, ctx, run.state, attempt, w);
      var nr := RunNode(db, node, ctx, run.state, attempt, w);
      OutcomeWake(wf.steps, run, r, nr, if nr.spawn.Some? then [ChildStarted(r, node.name, db.nextRun)] else []);
    }
  }

  lemma NodeWake(db: Db, node: Node, ctx: Ctx, st: State, attempt: nat, w: World)
    requires attempt > 0
    ensures var outcome := RunNode(db, node, ctx, st, attempt, w).outcome;
      && (outcome.Parked? ==> (outcome.wakeAfter == None <==> node.WaitForSignal?))
      && (outcome.Retry? ==> Retried(node))
  {
  }

  /** If the run's own token was taken and every other run has its token, a matching move
      gives every run its token again, the child it starts included. */
  lemma ApplyMoveTokens(reg: Registry, db: Db, r: RunId, move: Move)
    requires KeysOk(db) && r in db.runs && SpawnKnown(reg, move) && move.run.workflow in reg
    requires JobsOf(db.jobs, r) == {} && WakeMatches(reg[move.run.workflow].steps, move)
    requires OthersHaveTokens(reg, db, r)
    ensures TokensOk(reg, ApplyMove(db, r, move))
  {
    ApplyMoveRuns(db, r, move);
    var after := ApplyMove(db, r, move);
    forall q | q in after.runs && after.runs[q].workflow in reg
      ensures HasToken(after.jobs, q, Needed(reg[after.runs[q].workflow].steps, after.runs[q]))
    {
      if q == r {
        OwnToken(reg, db, r, move);
      } else if q in db.runs {
        OtherToken(db, r, move, q, Needed(reg[db.runs[q].workflow].steps, db.runs[q]));
      } else {
        ChildToken(db, r, move);
      }
    }
  }

  lemma OwnToken(reg: Registry, db: Db, r: RunId, move: Move)
    requires KeysOk(db) && r in db.runs && move.run.workflow in reg
    requires JobsOf(db.jobs, r) == {} && WakeMatches(reg[move.run.workflow].steps, move)
    ensures HasToken(ApplyMove(db, r, move).jobs, r, Needed(reg[move.run.workflow].steps, move.run))
  {
    var mid := if move.spawn.Some? then db.jobs[db.nextJob := AdvanceJob(db.nextRun, 0.0)] else db.jobs;
    JobAdded(db.jobs, db.nextJob, AdvanceJob(db.nextRun, 0.0), r);
    var n := if move.spawn.Some? then db.nextJob + 1 else db.nextJob;
    match move.wake {
      case NoWake =>
      case WakeAdvance(delaySec) => TokenPut(mid, n, AdvanceJob(r, delaySec));
      case WakeCompensate => TokenPut(mid, n, CompensateJob(r));
    }
  }

  lemma OtherToken(db: Db, r: RunId, move: Move, q: RunId, token: Token)
    requires KeysOk(db) && r in db.runs && q in db.runs && q != r && HasToken(db.jobs, q, token)
    ensures HasToken(ApplyMove(db, r, move).jobs, q, token)
  {
    var mid := if move.spawn.Some? then db.jobs[db.nextJob := AdvanceJob(db.nextRun, 0.0)] else db.jobs;
    OtherTokenKept(db.jobs, db.nextJob, AdvanceJob(db.nextRun, 0.0), q, token);
    var n := if move.spawn.Some? then db.nextJob + 1 else db.nextJob;
    match move.wake {
      case NoWake =>
      case WakeAdvance(delaySec) => OtherTokenKept(mid, n, AdvanceJob(r, delaySec), q, token);
      case WakeCompensate => OtherTokenKept(mid, n, CompensateJob(r), q, token);
    }
  }

  lemma ChildToken(db: Db, r: RunId, move: Move)
    requires KeysOk(db) && r in db.runs && move.spawn.Some?
    ensures HasToken(ApplyMove(db, r, move).jobs, db.nextRun, AdvanceToken)
  {
    assert JobsOf(db.jobs, db.nextRun) == {};
    TokenPut(db.jobs, db.nextJob, AdvanceJob(db.nextRun, 0.0));
    var mid := db.jobs[db.nextJob := AdvanceJob(db.nextRun, 0.0)];
    match move.wake {
      case NoWake =>
      case WakeAdvance(delaySec) =>
        OtherTokenKept(mid, db.nextJob + 1, AdvanceJob(r, delaySec), db.nextRun, AdvanceToken);
      case WakeCompensate => OtherTokenKept(mid, db.nextJob + 1, CompensateJob(r), db.nextRun, AdvanceToken);
    }
  }

  // ----- The events --------------------------------------------------------------------------------------

  /** The queue entry and the status agree on which handler is due, and the entry is the
      run's only one. */
  lemma TokenTaken(reg: Registry, db: Db, job: nat)
    requires Known(reg, db) && TokensOk(reg, db) && job in db.jobs
    ensures var r := db.jobs[job].runId;
      && JobsOf(db.jobs - {job}, r) == {}
      && (db.jobs[job].AdvanceJob? ==> db.runs[r].status in {Pending, Running, Waiting})
      && (db.jobs[job].CompensateJob? ==> db.runs[r].status == Compensating)
  {
    var r := db.jobs[job].runId;
    assert job in JobsOf(db.jobs, r);
    assert HasToken(db.jobs, r, Needed(reg[db.runs[r].workflow].steps, db.runs[r]));
    JobTaken(db.jobs, job, r);
  }

  lemma OthersKeepTokens(reg: Registry, db: Db, job: nat)
    requires TokensOk(reg, db) && job in db.jobs
    ensures OthersHaveTokens(reg, db.(jobs := db.jobs - {job}), db.jobs[job].runId)
  {
    var r := db.jobs[job].runId;
    forall q | q in db.runs && q != r && db.runs[q].workflow in reg
      ensures HasToken(db.jobs - {job}, q, Needed(reg[db.runs[q].workflow].steps, db.runs[q]))
    {
      OtherTokenLeft(db.jobs, job, q, Needed(reg[db.runs[q].workflow].steps, db.runs[q]));
    }
  }

  lemma AdvanceTokens(reg: Registry, db: Db, r: RunId, w: World)
    requires RegistryOk(reg) && Known(reg, db) && r in db.runs && db.runs[r].status in {Pending, Running, Waiting}
    requires RunOk(reg[db.runs[r].workflow].steps, db.runs[r], CompletedRows(db.journal, r))
    requires JobsOf(db.jobs, r) == {} && OthersHaveTokens(reg, db, r)
    ensures TokensOk(reg, Advance(reg, db, r, w))
  {
    var wf := reg[db.runs[r].workflow];
    AdvanceWake(wf, db, r, w);
    AdvanceMoveOwn(wf, db, r, w);
    AdvanceSpawnKnown(reg, wf, db, r, w);
    ApplyMoveTokens(reg, db, r, AdvanceMove(wf, db, r, w));
  }

  lemma CompensateTokens(reg: Registry, db: Db, r: RunId, w: World)
    requires Known(reg, db) && r in db.runs && db.runs[r].status == Compensating
    requires JobsOf(db.jobs, r) == {} && OthersHaveTokens(reg, db, r)
    ensures TokensOk(reg, Compensate(reg, db, r, w))
  {
    ApplyMoveTokens(reg, db, r, CompensateMove(reg[db.runs[r].workflow], db, r, w));
  }

  lemma DeliverTokens(reg: Registry, db: Db, job: nat, w: World)
    requires RegistryOk(reg) && Known(reg, db) && TokensOk(reg, db) && job in db.jobs
    requires var r := db.jobs[job].runId;
      RunOk(reg[db.runs[r].workflow].steps, db.runs[r], CompletedRows(db.journal, r))
    ensures TokensOk(reg, Next(reg, db, Deliver(job, w)))
  {
    TokenTaken(reg, db, job);
    OthersKeepTokens(reg, db, job);
    var taken := db.(jobs := db.jobs - {job});
    match db.jobs[job] {
      case AdvanceJob(r, _) => AdvanceTokens(reg, taken, r, w);
      case CompensateJob(r) => CompensateTokens(reg, taken, r, w);
    }
  }

  lemma SignalTokens(reg: Registry, db: Db, runId: RunId, signal: string, payload: Value)
    requires RegistryOk(reg) && DbOk(reg, db) && TokensOk(reg, db)
    ensures TokensOk(reg, Signal(db, runId, signal, payload))
  {
    var target := SignalTarget(db, runId, signal);
    if target.Some? {
      var run := db.runs[runId];
      var steps := reg[run.workflow].steps;
      SignalMoveOk(steps, run, runId, CompletedRows(db.journal, runId), signal, payload);
      SignalMoveOwn(run, runId, target.value, payload);
      assert HasToken(db.jobs, runId, Needed(steps, run));
      ApplyMoveTokens(reg, db, runId, SignalMove(run, runId, target.value, payload));
    }
  }

  lemma StartTokens(reg: Registry, db: Db, workflow: string, input: Value)
    requires Known(reg, db) && TokensOk(reg, db)
    ensures TokensOk(reg, Start(reg, db, workflow, input))
  {
    if workflow in reg {
      var job := AdvanceJob(db.nextRun, 0.0);
      assert JobsOf(db.jobs, db.nextRun) == {};
      TokenPut(db.jobs, db.nextJob, job);
      forall q | q in db.runs && db.runs[q].workflow in reg
        ensures HasToken(db.jobs[db.nextJob := job], q, Needed(reg[db.runs[q].workflow].steps, db.runs[q]))
      {
        OtherTokenKept(db.jobs, db.nextJob, job, q, Needed(reg[db.runs[q].workflow].steps, db.runs[q]));
      }
    }
  }

  lemma NextTokens(reg: Registry, db: Db, event: Event)
    requires RegistryOk(reg) && DbOk(reg, db) && TokensOk(reg, db) && !event.Redeliver?
    ensures TokensOk(reg, Next(reg, db, event))
  {
    DbOkKnown(reg, db);
    match event {
      case StartEvent(workflow, input) => StartTokens(reg, db, workflow, input);
      case Deliver(job, w) =>
        if job in db.jobs {
          DeliverTokens(reg, db, job, w);
        }
      case SignalEvent(runId, signal, payload) => SignalTokens(reg, db, runId, signal, payload);
    }
  }

  /** With exactly-once delivery every run always has exactly the pending job its status calls
      for: one advance job while pending, running or waiting on a timer, one compensate job
      while compensating, and no job at all while parked on a signal, completed or failed. */
  lemma {:induction false} OneToken(reg: Registry, events: seq<Event>)
    requires RegistryOk(reg) && ExactlyOnce(events)
    ensures TokensOk(reg, Exec(reg, events))
  {
    if events != [] {
      OneToken(reg, events[..|events| - 1]);
      ReachableOk(reg, events[..|events| - 1]);
      NextTokens(reg, Exec(reg, events[..|events| - 1]), events[|events| - 1]);
    }
  }

  /** With exactly-once delivery a compensating run can only stay so or become failed. */
  lemma CompensatingOnlyFails(reg: Registry, events: seq<Event>, event: Event, r: RunId)
    requires RegistryOk(reg) && ExactlyOnce(events) && !event.Redeliver?
    requires r in Exec(reg, events).runs && Exec(reg, events).runs[r].status == Compensating
    ensures var after := Next(reg, Exec(reg, events), event);
      && r in after.runs
      && after.runs[r].status in {Compensating, Failed}
      && (after.runs[r].status == Failed <==>
            event.Deliver? && event.job in Exec(reg, events).jobs && Exec(reg, events).jobs[event.job].runId == r)
  {
    OneToken(reg, events);
    ReachableOk(reg, events);
    var db := Exec(reg, events);
    DbOkKnown(reg, db);
    CompensatingStep(reg, db, event, r);
  }

  lemma CompensatingStep(reg: Registry, db: Db, event: Event, r: RunId)
    requires Known(reg, db) && TokensOk(reg, db) && !event.Redeliver?
    requires r in db.runs && db.runs[r].status == Compensating
    ensures var after := Next(reg, db, event);
      && r in after.runs
      && after.runs[r].status in {Compensating, Failed}
      && (after.runs[r].status == Failed <==>
            event.Deliver? && event.job in db.jobs && db.jobs[event.job].runId == r)
  {
    match event {
      case StartEvent(_, _) =>
      case SignalEvent(runId, signal, payload) => SignalledRun(db, runId, signal, payload, r);
      case Deliver(job, w) =>
        if job in db.jobs {
          TokenTaken(reg, db, job);
          DeliveredRun(reg, db, job, w, r);
        }
    }
  }

  lemma SignalledRun(db: Db, runId: RunId, signal: string, payload: Value, r: RunId)
    requires r in db.runs && db.runs[r].status != Waiting
    ensures r in Signal(db, runId, signal, payload).runs && Signal(db, runId, signal, payload).runs[r] == db.runs[r]
  {
    var target := SignalTarget(db, runId, signal);
    if target.Some? {
      ApplyMoveRuns(db, runId, SignalMove(db.runs[runId], runId, target.value, payload));
    }
  }

  lemma DeliveredRun(reg: Registry, db: Db, job: nat, w: World, r: RunId)
    requires Known(reg, db) && job in db.jobs && r in db.runs && db.runs[r].status == Compensating
    requires db.jobs[job].runId == r ==> db.jobs[job].CompensateJob?
    ensures var after := Next(reg, db, Deliver(job, w));
      && r in after.runs
      && (if db.jobs[job].runId == r then after.runs[r].status == Failed else after.runs[r] == db.runs[r])
  {
    var taken := db.(jobs := db.jobs - {job});
    match db.jobs[job] {
      case AdvanceJob(q, _) => OtherRunKept(reg, taken, q, w, r);
      case CompensateJob(q) =>
        ApplyMoveRuns(taken, q, CompensateMove(reg[db.runs[q].workflow], taken, q, w));
    }
  }

  lemma OtherRunKept(reg: Registry, db: Db, q: RunId, w: World, r: RunId)
    requires KeysOk(db) && r in db.runs && q != r
    ensures r in Advance(reg, db, q, w).runs && Advance(reg, db, q, w).runs[r] == db.runs[r]
  {
    if AdvanceError(reg, db, q, w) == None && !Terminal(db.runs[q].status) {
      ApplyMoveRuns(db, q, AdvanceMove(reg[db.runs[q].workflow], db, q, w));
    }
  }

  /** No unfinished run is stranded: it has a pending job of its own, or it is parked on a
      signal and sending that signal makes it run again past the node. */
  lemma NoRunStranded(reg: Registry, events: seq<Event>, r: RunId, payload: Value)
    requires RegistryOk(reg) && ExactlyOnce(events)
    requires r in Exec(reg, events).runs && !Terminal(Exec(reg, events).runs[r].status)
    ensures var db := Exec(reg, events);
      || (exists j :: j in db.jobs && db.jobs[j].runId == r)
      || (&& |db.runs[r].state.awaitingSignals| == 1
          && var after := Signal(db, r, db.runs[r].state.awaitingSignals[0].1, payload);
          && r in after.runs && after.runs[r].status == Running
          && after.runs[r].currentStep == db.runs[r].currentStep + 1)
  {
    OneToken(reg, events);
    ReachableOk(reg, events);
    var db := Exec(reg, events);
    var run := db.runs[r];
    var steps := reg[run.workflow].steps;
    assert HasToken(db.jobs, r, Needed(steps, run));
    if Needed(steps, run) == NoToken {
      var signal := run.state.awaitingSignals[0].1;
      assert FindAwaiting(run.state.awaitingSignals, signal).Some?;
      var move := SignalMove(run, r, FindAwaiting(run.state.awaitingSignals, signal).value, payload);
      ApplyMoveRuns(db, r, move);
    }
  }
}
