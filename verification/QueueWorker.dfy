/** The queue's dispatcher and worker as they are written, over the tables they share. */
module QueueWorker {
  import opened Prelude
  import opened JobQueue

  /** `strav_jobs` and `strav_failed_jobs`, with what has happened to them so far. */
  class Tables {
    var jobs: map<JobId, Row>
    var failed: seq<FailedRow>
    ghost var holding: map<WorkerId, Row>
    ghost var dispatched: seq<JobId>
    ghost var completed: seq<JobId>
    ghost var dropped: seq<JobId>
    ghost var claims: seq<Claimed>

    constructor ()
      ensures AsFleet() == EMPTY
    {
      jobs, failed := map[], [];
      holding, dispatched, completed, dropped, claims := map[], [], [], [], [];
    }

    ghost function AsFleet(): Fleet
      reads this
    {
      Fleet(jobs, failed, holding, dispatched, completed, dropped, claims)
    }
  }

  // ----- DatabaseQueue -----------------------------------------------------------------------------------------

  /** When a delayed job is due: a number of seconds, or a date in milliseconds. */
  datatype DueAt = InSeconds(seconds: real) | AtDate(ms: int)

  function CeilSeconds(ms: int): int {
    -((-ms) / 1000)
  }

  /** Seconds from now; negative seconds are refused, past dates are due at once. */
  function ComputeDelaySeconds(at: DueAt, nowMs: int): Option<real> {
    match at
    case InSeconds(seconds) => if seconds < 0.0 then None else Some(seconds)
    case AtDate(ms) => Some(AtLeastZero(CeilSeconds(ms - nowMs) as real))
  }

  /** A date is never anticipated, and a future one is overshot by less than a second. */
  lemma DateIsRespected(ms: int, nowMs: int)
    ensures var delay := ComputeDelaySeconds(AtDate(ms), nowMs).value;
      && delay * 1000.0 >= (ms - nowMs) as real
      && (ms >= nowMs ==> delay * 1000.0 < (ms - nowMs + 1000) as real)
      && (ms <= nowMs ==> delay == 0.0)
  {
    var c := CeilSeconds(ms - nowMs);
    assert c * 1000 >= ms - nowMs > c * 1000 - 1000;
  }

  datatype DispatchOptions = DispatchOptions(queue: Option<string>, attempts: Option<int>)

  function FirstOf<T>(a: Option<T>, b: Option<T>, c: T): T {
    if a.Some? then a.value else if b.Some? then b.value else c
  }

  class DatabaseQueue {
    const db: Tables
    const defaultAttempts: int
    const defaultQueue: string

    constructor (db: Tables, defaultAttempts: Option<int>, defaultQueue: Option<string>)
      ensures this.db == db
      ensures this.defaultAttempts == FirstOf(defaultAttempts, None, 3)
      ensures this.defaultQueue == FirstOf(defaultQueue, None, "default")
    {
      this.db := db;
      this.defaultAttempts := FirstOf(defaultAttempts, None, 3);
      this.defaultQueue := FirstOf(defaultQueue, None, "default");
    }

    /** The row a dispatch of this class writes. */
    function RowFor(class_: JobClass, payload: Value, delay: real, opts: DispatchOptions, id: JobId, now: Time): Row {
      NewRow(id, FirstOf(opts.queue, class_.queue, defaultQueue), class_.jobName, payload,
        FirstOf(opts.attempts, class_.maxAttempts, defaultAttempts), delay, now)
    }

    method InsertJob(class_: JobClass, payload: Value, delay: real, opts: DispatchOptions, id: JobId, now: Time)
      requires id !in db.dispatched
      modifies db
      ensures db.AsFleet() == Insert(old(db.AsFleet()), RowFor(class_, payload, delay, opts, id, now))
    {
      var queue := if opts.queue.Some? then opts.queue.value else FirstOf(None, class_.queue, defaultQueue);
      var maxAttempts := if opts.attempts.Some? then opts.attempts.value
        else FirstOf(None, class_.maxAttempts, defaultAttempts);
      var availableAt := if delay > 0.0 then now + delay else now;
      db.jobs := db.jobs[id := Row(id, queue, class_.jobName, payload, 0, maxAttempts, availableAt, None)];
      db.dispatched := db.dispatched + [id];
    }

    method Dispatch(class_: JobClass, payload: Value, opts: DispatchOptions, id: JobId, now: Time)
      requires id !in db.dispatched
      modifies db
      ensures db.AsFleet() == Insert(old(db.AsFleet()), RowFor(class_, payload, 0.0, opts, id, now))
    {
      InsertJob(class_, payload, 0.0, opts, id, now);
    }

    method DispatchLater(at: DueAt, class_: JobClass, payload: Value, opts: DispatchOptions, id: JobId, now: Time,
        nowMs: int)
      returns (refused: bool)
      requires id !in db.dispatched
      modifies db
      ensures match ComputeDelaySeconds(at, nowMs)
        case None => refused && db.AsFleet() == old(db.AsFleet())
        case Some(delay) =>
          !refused && db.AsFleet() == Insert(old(db.AsFleet()), RowFor(class_, payload, delay, opts, id, now))
    {
      var delay := ComputeDelaySeconds(at, nowMs);
      if delay.None? {
        return true;
      }
      InsertJob(class_, payload, delay.value, opts, id, now);
      return false;
    }
  }

  // ----- Worker --------------------------------------------------------------------------------------------------

  datatype JobResult =
    | Completed(id: JobId, attempts: nat)
    | Retried(id: JobId, attempts: nat, delay: real)
    | Failed(id: JobId, attempts: nat)

  /** What a worker reports about a row it judged. */
  function Report(row: Row, verdict: Verdict): JobResult {
    match verdict
    case Complete => Completed(row.id, row.attempts)
    case Drop => Failed(row.id, row.attempts)
    case DeadLetter(_) => Failed(row.id, row.attempts)
    case RetryAfter(delay) => Retried(row.id, row.attempts, delay)
  }

  class Worker {
    const id: WorkerId
    const db: Tables
    const registry: Registry
    const options: WorkerOptions

    constructor (id: WorkerId, db: Tables, registry: Registry, options: WorkerOptions)
      ensures this.id == id && this.db == db && this.registry == registry && this.options == options
    {
      this.id, this.db, this.registry, this.options := id, db, registry, options;
    }

    method ClaimRow(now: Time, locked: set<JobId>) returns (row: Option<Row>)
      requires id !in db.holding
      modifies db
      ensures db.AsFleet() == Claim(old(db.AsFleet()), id, options.queues, now, locked)
      ensures row == if id in db.holding then Some(db.holding[id]) else None
    {
      var ids := Candidates(db.jobs, options.queues, now, locked);
      if ids == {} {
        return None;
      }
      var first := Least(ids);
      var found := db.jobs[first];
      var taken := found.(reservedAt := Some(now), attempts := found.attempts + 1);
      db.jobs := db.jobs[first := taken];
      db.holding := db.holding[id := taken];
      db.claims := db.claims + [Claimed(id, first, now, found.availableAt)];
      return Some(taken);
    }

    method DeleteRow(rowId: JobId)
      modifies db`jobs
      ensures db.jobs == old(db.jobs) - {rowId}
    {
      db.jobs := db.jobs - {rowId};
    }

    method MoveToFailed(row: Row, exception: string)
      modifies db`jobs, db`failed
      ensures db.jobs == old(db.jobs) - {row.id} && db.failed == old(db.failed) + [Buried(row, exception)]
    {
      db.failed := db.failed + [FailedRow(
        row.id, row.queue, row.jobName, row.payload, exception, row.attempts, row.maxAttempts)];
      DeleteRow(row.id);
    }

    method ScheduleRetry(rowId: JobId, delay: real, now: Time)
      modifies db`jobs
      ensures db.jobs == if rowId in old(db.jobs)
        then old(db.jobs)[rowId := old(db.jobs)[rowId].(availableAt := now + delay, reservedAt := None)]
        else old(db.jobs)
    {
      if rowId in db.jobs {
        db.jobs := db.jobs[rowId := db.jobs[rowId].(availableAt := now + delay, reservedAt := None)];
      }
    }

    /** What happens to a claimed row after its handler returned or threw. */
    method HandleRow(row: Row, handled: Result<(), string>, now: Time) returns (result: JobResult)
      requires id in db.holding && db.holding[id] == row
      modifies db
      ensures db.AsFleet() == Finish(registry, options, old(db.AsFleet()), id, handled, now)
      ensures result == Report(row, Judge(registry, options, row, handled))
    {
      db.holding := db.holding - {id};
      if row.jobName !in registry {
        DeleteRow(row.id);
        db.dropped := db.dropped + [row.id];
        return Failed(row.id, row.attempts);
      }
      var class_ := registry[row.jobName];
      match handled {
        case Ok(_) =>
          DeleteRow(row.id);
          db.completed := db.completed + [row.id];
          return Completed(row.id, row.attempts);
        case Err(exception) =>
          var maxAttempts := if class_.maxAttempts.Some? then class_.maxAttempts.value else row.maxAttempts;
          if row.attempts >= maxAttempts {
            MoveToFailed(row, exception);
            return Failed(row.id, row.attempts);
          }
          var delay := BackoffDelay(class_, options, row.attempts);
          ScheduleRetry(row.id, delay, now);
          return Retried(row.id, row.attempts, delay);
      }
    }

    /** One poll by a worker on its own: `handle` is what the handler of a row does, `done` the
        clock when it is over. With nothing to claim the tables stay as they are. */
    method ProcessOne(now: Time, locked: set<JobId>, handle: Row -> Result<(), string>, done: Time)
      returns (result: Option<JobResult>)
      requires id !in db.holding
      modifies db
      ensures var claimed := Claim(old(db.AsFleet()), id, options.queues, now, locked);
        if id in claimed.holding then
          var row := claimed.holding[id];
          && db.AsFleet() == Finish(registry, options, claimed, id, handle(row), done)
          && result == Some(Report(row, Judge(registry, options, row, handle(row))))
        else db.AsFleet() == old(db.AsFleet()) && result == None
    {
      var row := ClaimRow(now, locked);
      if row.None? {
        return None;
      }
      var reported := HandleRow(row.value, handle(row.value), done);
      return Some(reported);
    }
  }
}
