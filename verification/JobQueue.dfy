/** The job tables and the steps dispatchers and workers take on them, interleaved at will. */
module JobQueue {
  import opened Prelude

  type JobId = nat
  type WorkerId = nat
  /** Seconds on the database clock. */
  type Time = real

  /** A row of `strav_jobs`. */
  datatype Row = Row(
    id: JobId, queue: string, jobName: string, payload: Value, attempts: nat, maxAttempts: int, availableAt: Time,
    reservedAt: Option<Time>)

  /** A row of `strav_failed_jobs`. `origin` and `maxAttempts` are the id and the limit of the job
      it was; the table does not keep them. */
  datatype FailedRow = FailedRow(
    origin: JobId, queue: string, jobName: string, payload: Value, exception: string, attempts: nat, maxAttempts: int)

  datatype JobClass = JobClass(
    jobName: string, queue: Option<string>, maxAttempts: Option<int>, backoff: Option<nat -> real>)

  type Registry = map<string, JobClass>

  datatype WorkerOptions = WorkerOptions(queues: seq<string>, defaultBackoff: nat -> real)

  datatype Claimed = Claimed(worker: WorkerId, id: JobId, at: Time, availableAt: Time)

  /** The tables, the row each busy worker holds a copy of, and a record of what happened. */
  datatype Fleet = Fleet(
    jobs: map<JobId, Row>,
    failed: seq<FailedRow>,
    holding: map<WorkerId, Row>,
    dispatched: seq<JobId>,
    completed: seq<JobId>,
    dropped: seq<JobId>,
    claims: seq<Claimed>)

  const EMPTY := Fleet(map[], [], map[], [], [], [], [])

  // ----- Dispatch ---------------------------------------------------------------------------------------------

  /** An `INSERT` under an id never used before. */
  function Insert(st: Fleet, row: Row): Fleet {
    if row.id in st.dispatched then st
    else st.(jobs := st.jobs[row.id := row], dispatched := st.dispatched + [row.id])
  }

  function NewRow(id: JobId, queue: string, jobName: string, payload: Value, maxAttempts: int, delay: real,
      now: Time): Row {
    Row(id, queue, jobName, payload, 0, maxAttempts, if delay > 0.0 then now + delay else now, None)
  }

  // ----- Claim --------------------------------------------------------------------------------------------------

  predicate Available(row: Row, queues: seq<string>, now: Time) {
    row.queue in queues && row.availableAt <= now && row.reservedAt.None?
  }

  /** The ids a claim may take: available and not locked by another claim's open transaction. */
  function Candidates(jobs: map<JobId, Row>, queues: seq<string>, now: Time, locked: set<JobId>): set<JobId> {
    set id | id in jobs && id !in locked && Available(jobs[id], queues, now)
  }

  lemma {:induction false} LeastExists(ids: set<JobId>) returns (least: JobId)
    requires ids != {}
    ensures least in ids && forall id :: id in ids ==> least <= id
    decreases |ids|
  {
    var some :| some in ids;
    var others := ids - {some};
    if others == {} {
      least := some;
      assert ids == {some} + others;
    } else {
      assert |others| < |ids|;
      var below := LeastExists(others);
      least := if some < below then some else below;
      forall id | id in ids
        ensures least <= id
      {
        assert id == some || id in others;
      }
    }
  }

  predicate IsLeast(ids: set<JobId>, least: JobId) {
    least in ids && forall id :: id in ids ==> least <= id
  }

  /** `ORDER BY id LIMIT 1`. */
  function Least(ids: set<JobId>): (least: JobId)
    requires ids != {}
    ensures IsLeast(ids, least)
  {
    assert exists x :: IsLeast(ids, x) by {
      var x := LeastExists(ids);
      assert IsLeast(ids, x);
    }
    var least: JobId :| IsLeast(ids, least);
    least
  }

  function Reserve(row: Row, now: Time): Row {
    row.(reservedAt := Some(now), attempts := row.attempts + 1)
  }

  /** One worker takes one row, if there is one and it is idle. */
  function Claim(st: Fleet, worker: WorkerId, queues: seq<string>, now: Time, locked: set<JobId>): Fleet {
    var ids := Candidates(st.jobs, queues, now, locked);
    if worker in st.holding || ids == {} then st
    else
      var id := Least(ids);
      var row := Reserve(st.jobs[id], now);
      st.(
        jobs := st.jobs[id := row],
        holding := st.holding[worker := row],
        claims := st.claims + [Claimed(worker, id, now, st.jobs[id].availableAt)])
  }

  // ----- What becomes of a claimed row -----------------------------------------------------------------------

  datatype Verdict = Complete | Drop | DeadLetter(exception: string) | RetryAfter(delay: real)

  /** The class's own limit, else the one stored with the job. */
  function Limit(class_: JobClass, stored: int): int {
    if class_.maxAttempts.Some? then class_.maxAttempts.value else stored
  }

  function AtLeastZero(x: real): real {
    if x < 0.0 then 0.0 else x
  }

  /** The class's own backoff or the worker's, never negative. */
  function BackoffDelay(class_: JobClass, options: WorkerOptions, attempts: nat): real {
    AtLeastZero(if class_.backoff.Some? then class_.backoff.value(attempts) else options.defaultBackoff(attempts))
  }

  /** What a worker decides once the handler has returned or thrown. */
  function Judge(reg: Registry, options: WorkerOptions, row: Row, handled: Result<(), string>): Verdict {
    if row.jobName !in reg then Drop
    else
      match handled
      case Ok(_) => Complete
      case Err(exception) =>
        var class_ := reg[row.jobName];
        if row.attempts as int >= Limit(class_, row.maxAttempts) then DeadLetter(exception)
        else RetryAfter(BackoffDelay(class_, options, row.attempts))
  }

  function DeleteRow(st: Fleet, id: JobId): Fleet {
    st.(jobs := st.jobs - {id})
  }

  function Buried(row: Row, exception: string): FailedRow {
    FailedRow(row.id, row.queue, row.jobName, row.payload, exception, row.attempts, row.maxAttempts)
  }

  /** The effect of a verdict on the tables. */
  function Settle(st: Fleet, row: Row, verdict: Verdict, now: Time): Fleet {
    match verdict
    case Complete => DeleteRow(st, row.id).(completed := st.completed + [row.id])
    case Drop => DeleteRow(st, row.id).(dropped := st.dropped + [row.id])
    case DeadLetter(exception) => DeleteRow(st, row.id).(failed := st.failed + [Buried(row, exception)])
    case RetryAfter(delay) =>
      if row.id in st.jobs then
        st.(jobs := st.jobs[row.id := st.jobs[row.id].(availableAt := now + delay, reservedAt := None)])
      else st
  }

  function Release(st: Fleet, worker: WorkerId): Fleet {
    st.(holding := st.holding - {worker})
  }

  function Finish(reg: Registry, options: WorkerOptions, st: Fleet, worker: WorkerId, handled: Result<(), string>,
      now: Time)
    : Fleet
  {
    if worker !in st.holding then st
    else
      var row := st.holding[worker];
      Release(Settle(st, row, Judge(reg, options, row, handled), now), worker)
  }

  // ----- Runs of the fleet -------------------------------------------------------------------------------------------

  /** Steps of any dispatcher and any worker. A crashed worker forgets the row it held, and
      nothing ever unreserves that row. */
  datatype Event =
    | DispatchEvent(
        id: JobId, queue: string, jobName: string, payload: Value, maxAttempts: int, delay: real, now: Time)
    | ClaimEvent(worker: WorkerId, now: Time, locked: set<JobId>)
    | FinishEvent(worker: WorkerId, handled: Result<(), string>, now: Time)
    | CrashEvent(worker: WorkerId)

  type Options = WorkerId -> WorkerOptions

  function Next(reg: Registry, options: Options, st: Fleet, event: Event): Fleet {
    match event
    case DispatchEvent(id, queue, jobName, payload, maxAttempts, delay, now) =>
      Insert(st, NewRow(id, queue, jobName, payload, maxAttempts, delay, now))
    case ClaimEvent(worker, now, locked) => Claim(st, worker, options(worker).queues, now, locked)
    case FinishEvent(worker, handled, now) => Finish(reg, options(worker), st, worker, handled, now)
    case CrashEvent(worker) => Release(st, worker)
  }

  function Exec(reg: Registry, options: Options, events: seq<Event>): Fleet {
    if events == [] then EMPTY
    else Next(reg, options, Exec(reg, options, events[..|events| - 1]), events[|events| - 1])
  }
}
