/** What one event can do to one run. */
module DurableChange {
  import opened Prelude
  import opened DurableTypes
  import opened DurableSpec
  import opened DurableJournal
  import opened DurableReachable

  datatype Change =
    | Untouched
    | Created(workflow: string, input: Value)
    | Advanced(w: World)
    | RolledBack
    | Signalled(signal: string, payload: Value)

  predicate Explains(reg: Registry, db: Db, r: RunId, after: Run, change: Change) {
    match change
    case Untouched => r in db.runs && after == db.runs[r]
    case Created(workflow, input) => r == db.nextRun && workflow in reg && after == NewRun(workflow, input)
    case Advanced(w) =>
      && r in db.runs && !Terminal(db.runs[r].status) && db.runs[r].workflow in reg
      && after == AdvanceMove(reg[db.runs[r].workflow], db, r, w).run
    case RolledBack => r in db.runs && db.runs[r].status == Compensating && after == db.runs[r].(status := Failed)
    case Signalled(signal, payload) =>
      && SignalTarget(db, r, signal).Some?
      && after == SignalMove(db.runs[r], r, SignalTarget(db, r, signal).value, payload).run
  }

  lemma AdvanceChange(reg: Registry, db: Db, q: RunId, w: World, r: RunId) returns (change: Change)
    requires RegistryOk(reg) && Known(reg, db) && r in Advance(reg, db, q, w).runs
    ensures Explains(reg, db, r, Advance(reg, db, q, w).runs[r], change)
    ensures change.Untouched? || change.Created? || change == Advanced(w)
  {
    if q in db.runs && !Terminal(db.runs[q].status) {
      var wf := reg[db.runs[q].workflow];
      var move := AdvanceMove(wf, db, q, w);
      ApplyMoveRuns(db, q, move);
      AdvanceSpawnKnown(reg, wf, db, q, w);
      if r == q {
        return Advanced(w);
      } else if r !in db.runs {
        return Created(move.spawn.value.workflow, move.spawn.value.input);
      }
    }
    return Untouched;
  }

  lemma CompensateChange(reg: Registry, db: Db, q: RunId, w: World, r: RunId) returns (change: Change)
    requires Known(reg, db) && r in Compensate(reg, db, q, w).runs
    ensures Explains(reg, db, r, Compensate(reg, db, q, w).runs[r], change)
    ensures change.Untouched? || change.RolledBack?
  {
    if q in db.runs && db.runs[q].status == Compensating {
      ApplyMoveRuns(db, q, CompensateMove(reg[db.runs[q].workflow], db, q, w));
      if r == q {
        return RolledBack;
      }
    }
    return Untouched;
  }

  lemma SignalChange(reg: Registry, db: Db, q: RunId, signal: string, payload: Value, r: RunId)
    returns (change: Change)
    requires r in Signal(db, q, signal, payload).runs
    ensures Explains(reg, db, r, Signal(db, q, signal, payload).runs[r], change)
    ensures change.Untouched? || (change == Signalled(signal, payload) && q == r)
  {
    var target := SignalTarget(db, q, signal);
    if target.Some? {
      ApplyMoveRuns(db, q, SignalMove(db.runs[q], q, target.value, payload));
      if r == q {
        return Signalled(signal, payload);
      }
    }
    return Untouched;
  }

  /** The queue plays no part in what a handler writes to a run. */
  lemma QueueIrrelevant(wf: Workflow, db: Db, jobs: map<nat, Job>, r: RunId, w: World)
    requires r in db.runs
    ensures AdvanceMove(wf, db.(jobs := jobs), r, w) == AdvanceMove(wf, db, r, w)
  {
  }

  lemma HandleChange(reg: Registry, db: Db, job: Job, w: World, r: RunId) returns (change: Change)
    requires RegistryOk(reg) && Known(reg, db) && r in Handle(reg, db, job, w).runs
    ensures Explains(reg, db, r, Handle(reg, db, job, w).runs[r], change)
    ensures !change.Signalled?
    ensures change.Advanced? ==> change == Advanced(w) && job.AdvanceJob?
  {
    match job {
      case AdvanceJob(q, _) => change := AdvanceChange(reg, db, q, w, r);
      case CompensateJob(q) => change := CompensateChange(reg, db, q, w, r);
    }
  }

  lemma ExplainsWithoutJob(reg: Registry, db: Db, jobs: map<nat, Job>, r: RunId, after: Run, change: Change)
    requires Explains(reg, db.(jobs := jobs), r, after, change)
    ensures Explains(reg, db, r, after, change)
  {
    if change.Advanced? {
      QueueIrrelevant(reg[db.runs[r].workflow], db, jobs, r, change.w);
    }
  }

  lemma NextChange(reg: Registry, db: Db, event: Event, r: RunId) returns (change: Change)
    requires RegistryOk(reg) && Known(reg, db) && r in Next(reg, db, event).runs
    ensures Explains(reg, db, r, Next(reg, db, event).runs[r], change)
    ensures change.Signalled? ==> event == SignalEvent(r, change.signal, change.payload)
  {
    match event {
      case StartEvent(workflow, input) =>
        if workflow in reg && r == db.nextRun {
          change := Created(workflow, input);
        } else {
          change := Untouched;
        }
      case Deliver(job, w) =>
        if job in db.jobs {
          change := HandleChange(reg, db.(jobs := db.jobs - {job}), db.jobs[job], w, r);
          ExplainsWithoutJob(reg, db, db.jobs - {job}, r, Next(reg, db, event).runs[r], change);
        } else {
          change := Untouched;
        }
      case Redeliver(stray, w) => change := HandleChange(reg, db, stray, w, r);
      case SignalEvent(q, signal, payload) => change := SignalChange(reg, db, q, signal, payload, r);
    }
  }

  /** The record of outside effects only grows. */
  lemma LogGrows(reg: Registry, db: Db, event: Event)
    ensures db.log <= Next(reg, db, event).log
  {
    match event {
      case StartEvent(_, _) =>
      case Deliver(job, w) =>
        if job in db.jobs {
          HandleLogGrows(reg, db.(jobs := db.jobs - {job}), db.jobs[job], w);
        }
      case Redeliver(stray, w) => HandleLogGrows(reg, db, stray, w);
      case SignalEvent(q, signal, payload) =>
        var target := SignalTarget(db, q, signal);
        if target.Some? {
          ApplyMoveRuns(db, q, SignalMove(db.runs[q], q, target.value, payload));
        }
    }
  }

  lemma HandleLogGrows(reg: Registry, db: Db, job: Job, w: World)
    ensures db.log <= Handle(reg, db, job, w).log
  {
    match job {
      case AdvanceJob(q, _) =>
        if AdvanceError(reg, db, q, w) == None && !Terminal(db.runs[q].status) {
          ApplyMoveRuns(db, q, AdvanceMove(reg[db.runs[q].workflow], db, q, w));
        }
      case CompensateJob(q) =>
        if CompensateError(reg, db, q) == None && db.runs[q].status == Compensating {
          ApplyMoveRuns(db, q, CompensateMove(reg[db.runs[q].workflow], db, q, w));
        }
    }
  }

  lemma SignalLogged(db: Db, r: RunId, signal: string, payload: Value)
    requires SignalTarget(db, r, signal).Some?
    ensures var after := Signal(db, r, signal, payload);
      after.log == db.log + [SignalAccepted(r, SignalTarget(db, r, signal).value, payload)]
  {
    ApplyMoveRuns(db, r, SignalMove(db.runs[r], r, SignalTarget(db, r, signal).value, payload));
  }
}
