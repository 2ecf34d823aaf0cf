/** What a dispatch, a claim and a finished handler do to the job tables, said of the rows alone. */
module QueueOutcomes {
  import opened Prelude
  import opened JobQueue
  import opened QueueLaws
  import opened QueueWorker

  // ----- Dispatch ----------------------------------------------------------------------------------------

  /** A job goes to the queue asked for, else its class's, else the default one; its limit is the
      one asked for, else its class's, else the default; and it is due after its delay. */
  lemma DispatchedRow(q: DatabaseQueue, class_: JobClass, payload: Value, delay: real, opts: DispatchOptions, id: JobId,
      now: Time)
    ensures var row := q.RowFor(class_, payload, delay, opts, id, now);
      && row.id == id && row.jobName == class_.jobName && row.payload == payload
      && row.attempts == 0 && row.reservedAt == None
      && row.queue == (match (opts.queue, class_.queue)
           case (Some(asked), _) => asked
           case (None, Some(own)) => own
           case (None, None) => q.defaultQueue)
      && row.maxAttempts == (match (opts.attempts, class_.maxAttempts)
           case (Some(asked), _) => asked
           case (None, Some(own)) => own
           case (None, None) => q.defaultAttempts)
      && row.availableAt == now + (if delay > 0.0 then delay else 0.0)
  {
  }

  /** Seconds are taken as they are; negative ones are refused. */
  lemma SecondsAreTaken(seconds: real, nowMs: int)
    ensures ComputeDelaySeconds(InSeconds(seconds), nowMs) == if seconds < 0.0 then None else Some(seconds)
  {
  }

  // ----- Claim -------------------------------------------------------------------------------------------

  /** A row this claim may take: of one of the queues, due, idle, and not being claimed by another. */
  predicate Free(st: Fleet, queues: seq<string>, now: Time, locked: set<JobId>, id: JobId) {
    && id in st.jobs && id !in locked && st.jobs[id].queue in queues
    && st.jobs[id].availableAt <= now && st.jobs[id].reservedAt.None?
  }

  lemma FreeIsCandidate(st: Fleet, queues: seq<string>, now: Time, locked: set<JobId>, id: JobId)
    ensures id in Candidates(st.jobs, queues, now, locked) <==> Free(st, queues, now, locked, id)
  {
  }

  /** An idle worker takes the free row with the least id: the row is reserved now, its attempt is
      counted, and the worker holds a copy. */
  lemma ClaimTakesFirst(st: Fleet, worker: WorkerId, queues: seq<string>, now: Time, locked: set<JobId>, id: JobId)
    requires worker !in st.holding && Free(st, queues, now, locked, id)
    requires forall other :: Free(st, queues, now, locked, other) ==> id <= other
    ensures var after := Claim(st, worker, queues, now, locked);
      var taken := st.jobs[id].(reservedAt := Some(now), attempts := st.jobs[id].attempts + 1);
      after == st.(
        jobs := st.jobs[id := taken],
        holding := st.holding[worker := taken],
        claims := st.claims + [Claimed(worker, id, now, st.jobs[id].availableAt)])
  {
    var ids := Candidates(st.jobs, queues, now, locked);
    FreeIsCandidate(st, queues, now, locked, id);
    FreeIsCandidate(st, queues, now, locked, Least(ids));
    assert Least(ids) <= id;
  }

  /** Without a free row, or if the worker is busy, a claim changes nothing. */
  lemma ClaimTakesNothing(st: Fleet, worker: WorkerId, queues: seq<string>, now: Time, locked: set<JobId>)
    requires worker in st.holding || forall id :: !Free(st, queues, now, locked, id)
    ensures Claim(st, worker, queues, now, locked) == st
  {
    var ids := Candidates(st.jobs, queues, now, locked);
    if ids != {} {
      FreeIsCandidate(st, queues, now, locked, Least(ids));
    }
  }

  // ----- Finish ------------------------------------------------------------------------------------------

  /** The handler of a registered job threw. */
  predicate Threw(reg: Registry, row: Row, handled: Result<(), string>) {
    row.jobName in reg && handled.Err?
  }

  /** The job's tries are used up: its class's limit counts, else the one stored in its row. */
  predicate OutOfTries(class_: JobClass, row: Row) {
    match class_.maxAttempts
    case Some(limit) => row.attempts >= limit
    case None => row.attempts >= row.maxAttempts
  }

  /** Seconds until the next try: the class's own backoff, else the worker's, never negative. */
  function RetryDelay(class_: JobClass, options: WorkerOptions, row: Row): (delay: real)
    ensures delay >= 0.0
  {
    var asked := match class_.backoff
      case Some(backoff) => backoff(row.attempts)
      case None => options.defaultBackoff(row.attempts);
    if asked < 0.0 then 0.0 else asked
  }

  /** The holder's copy is the row itself. */
  lemma HeldRow(reg: Registry, options: Options, events: seq<Event>, worker: WorkerId)
    requires worker in Exec(reg, options, events).holding
    ensures var st := Exec(reg, options, events);
      st.holding[worker].id in st.jobs && st.jobs[st.holding[worker].id] == st.holding[worker]
  {
    ReachableOk(reg, options, events);
  }

  /** What becomes of a job when the holder of its row is done with it. */
  predicate Finished(reg: Registry, options: WorkerOptions, st: Fleet, row: Row, handled: Result<(), string>, now: Time,
      after: Fleet)
  {
    if row.jobName !in reg then
      after == st.(jobs := st.jobs - {row.id}, dropped := st.dropped + [row.id], holding := after.holding)
    else if handled.Ok? then
      after == st.(jobs := st.jobs - {row.id}, completed := st.completed + [row.id], holding := after.holding)
    else if OutOfTries(reg[row.jobName], row) then
      after == st.(
        jobs := st.jobs - {row.id},
        failed := st.failed
          + [FailedRow(row.id, row.queue, row.jobName, row.payload, handled.error, row.attempts, row.maxAttempts)],
        holding := after.holding)
    else
      var due := now + RetryDelay(reg[row.jobName], options, row);
      after == st.(jobs := st.jobs[row.id := row.(reservedAt := None, availableAt := due)], holding := after.holding)
  }

  lemma FinishIs(reg: Registry, options: WorkerOptions, st: Fleet, worker: WorkerId, handled: Result<(), string>,
      now: Time)
    requires worker in st.holding && st.holding[worker].id in st.jobs
    requires st.jobs[st.holding[worker].id] == st.holding[worker]
    ensures Finished(reg, options, st, st.holding[worker], handled, now, Finish(reg, options, st, worker, handled, now))
    ensures Finish(reg, options, st, worker, handled, now).holding == st.holding - {worker}
  {
  }

  /** Whatever happened before: when the holder of a row is done with it, the job is dropped if its
      name is unknown; completed if its handler returned; dead-lettered, with its payload and what
      it threw, if its handler threw and its tries are used up; and otherwise live, idle, and due
      after its backoff. Nothing else changes, and the worker holds nothing any more. */
  lemma FinishedJob(reg: Registry, options: Options, events: seq<Event>, worker: WorkerId, handled: Result<(), string>,
      now: Time)
    requires worker in Exec(reg, options, events).holding
    ensures var st := Exec(reg, options, events);
      var after := Exec(reg, options, events + [FinishEvent(worker, handled, now)]);
      && Finished(reg, options(worker), st, st.holding[worker], handled, now, after)
      && after.holding == st.holding - {worker}
  {
    HeldRow(reg, options, events, worker);
    assert (events + [FinishEvent(worker, handled, now)])[..|events|] == events;
    FinishIs(reg, options(worker), Exec(reg, options, events), worker, handled, now);
  }

  /** Only a returning handler completes a job, and only a throwing one out of tries is
      dead-lettered. */
  lemma CompletedOnlyIf(reg: Registry, options: Options, events: seq<Event>, worker: WorkerId,
      handled: Result<(), string>, now: Time)
    requires worker in Exec(reg, options, events).holding
    ensures var st := Exec(reg, options, events);
      var after := Exec(reg, options, events + [FinishEvent(worker, handled, now)]);
      var row := st.holding[worker];
      && (after.completed != st.completed <==> row.jobName in reg && handled.Ok?)
      && (after.failed != st.failed <==> Threw(reg, row, handled) && OutOfTries(reg[row.jobName], row))
      && (after.dropped != st.dropped <==> row.jobName !in reg)
      && (row.id in after.jobs <==> Threw(reg, row, handled) && !OutOfTries(reg[row.jobName], row))
  {
    FinishedJob(reg, options, events, worker, handled, now);
  }

  /** What the worker reports is what became of the job. */
  lemma ReportedJob(reg: Registry, options: WorkerOptions, row: Row, handled: Result<(), string>)
    ensures var report := Report(row, Judge(reg, options, row, handled));
      if row.jobName !in reg then report == Failed(row.id, row.attempts)
      else if handled.Ok? then report == Completed(row.id, row.attempts)
      else if OutOfTries(reg[row.jobName], row) then report == Failed(row.id, row.attempts)
      else report == Retried(row.id, row.attempts, RetryDelay(reg[row.jobName], options, row))
  {
  }

  /** A crashed worker's row stays as it is: reserved, held by nobody. */
  lemma CrashedWorker(reg: Registry, options: Options, events: seq<Event>, worker: WorkerId)
    ensures var st := Exec(reg, options, events);
      Next(reg, options, st, CrashEvent(worker)) == st.(holding := st.holding - {worker})
  {
  }
}
