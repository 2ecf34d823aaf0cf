/** What holds of the job tables under any interleaving of dispatchers and workers. */
module QueueLaws {
  import opened Prelude
  import opened JobQueue

  // ----- Exclusion and reservations --------------------------------------------------------------------------

  /** A busy worker's copy is the reserved row itself, and no two workers hold one row. */
  ghost predicate HoldingOk(st: Fleet) {
    && (forall w :: w in st.holding ==>
          var row := st.holding[w];
          row.id in st.jobs && st.jobs[row.id] == row && row.reservedAt.Some?)
    && (forall v, w :: v in st.holding && w in st.holding && v != w ==> st.holding[v].id != st.holding[w].id)
  }

  ghost predicate RowsOk(st: Fleet) {
    forall id :: id in st.jobs ==> st.jobs[id].id == id
  }

  // ----- Conservation -------------------------------------------------------------------------------------------

  function Origins(failed: seq<FailedRow>): seq<JobId> {
    if failed == [] then [] else Origins(failed[..|failed| - 1]) + [failed[|failed| - 1].origin]
  }

  /** Every dispatched job is exactly one of live, completed, dead-lettered and dropped. */
  ghost predicate Conserved(st: Fleet) {
    && multiset(st.dispatched)
      == multiset(st.jobs.Keys) + multiset(st.completed) + multiset(Origins(st.failed)) + multiset(st.dropped)
    && forall id :: multiset(st.dispatched)[id] <= 1
  }

  // ----- Claims and attempts --------------------------------------------------------------------------------------

  function ClaimsOf(claims: seq<Claimed>, id: JobId): nat {
    if claims == [] then 0
    else ClaimsOf(claims[..|claims| - 1], id) + if claims[|claims| - 1].id == id then 1 else 0
  }

  ghost predicate ClaimsOk(st: Fleet) {
    && (forall i :: 0 <= i < |st.claims| ==>
          st.claims[i].availableAt <= st.claims[i].at && st.claims[i].id in st.dispatched)
    && (forall id :: id in st.jobs ==> id in st.dispatched && st.jobs[id].attempts == ClaimsOf(st.claims, id))
    && (forall i :: 0 <= i < |st.failed| ==> st.failed[i].attempts == ClaimsOf(st.claims, st.failed[i].origin))
  }

  /** An unreserved row has an attempt to go, or has not been tried. */
  ghost predicate AttemptsOk(reg: Registry, st: Fleet) {
    forall id :: id in st.jobs && st.jobs[id].jobName in reg ==>
      var row := st.jobs[id];
      var limit := Limit(reg[row.jobName], row.maxAttempts);
      if row.reservedAt.None? then row.attempts == 0 || row.attempts as int < limit
      else row.attempts == 1 || row.attempts as int <= limit
  }

  /** The tries a limit allows: the first one is always made. */
  function Tries(limit: int): nat {
    if limit < 1 then 1 else limit
  }

  /** Tried exactly as often as its limit allows. */
  predicate Exhausted(reg: Registry, row: FailedRow) {
    row.jobName in reg && row.attempts == Tries(Limit(reg[row.jobName], row.maxAttempts))
  }

  ghost predicate FailedOk(reg: Registry, st: Fleet) {
    forall i :: 0 <= i < |st.failed| ==> Exhausted(reg, st.failed[i])
  }

  /** A worker only ever holds a row it claimed. */
  ghost predicate HeldOnce(st: Fleet) {
    forall w :: w in st.holding ==> st.holding[w].attempts >= 1
  }

  ghost predicate FleetOk(reg: Registry, st: Fleet) {
    && RowsOk(st) && HoldingOk(st) && HeldOnce(st) && Conserved(st) && ClaimsOk(st) && AttemptsOk(reg, st)
    && FailedOk(reg, st)
  }

  // ----- Small facts ------------------------------------------------------------------------------------------------

  lemma OriginsAppend(failed: seq<FailedRow>, row: FailedRow)
    ensures Origins(failed + [row]) == Origins(failed) + [row.origin]
  {
    assert (failed + [row])[..|failed|] == failed;
  }

  lemma ClaimsAppend(claims: seq<Claimed>, claim: Claimed, id: JobId)
    ensures ClaimsOf(claims + [claim], id) == ClaimsOf(claims, id) + if claim.id == id then 1 else 0
  {
    assert (claims + [claim])[..|claims|] == claims;
  }

  lemma {:induction false} NoClaims(claims: seq<Claimed>, id: JobId)
    requires forall i :: 0 <= i < |claims| ==> claims[i].id != id
    ensures ClaimsOf(claims, id) == 0
  {
    if claims != [] {
      NoClaims(claims[..|claims| - 1], id);
    }
  }

  lemma LiveIsDispatched(st: Fleet, id: JobId)
    requires Conserved(st) && id in st.jobs
    ensures id in st.dispatched
  {
    assert multiset(st.jobs.Keys)[id] == 1;
    assert multiset(st.dispatched)[id] >= 1;
  }

  // ----- Dispatch ----------------------------------------------------------------------------------------------------

  lemma InsertConserves(st: Fleet, row: Row)
    requires Conserved(st) && row.id !in st.dispatched
    ensures Conserved(Insert(st, row))
  {
    var after := Insert(st, row);
    assert row.id !in st.jobs by {
      if row.id in st.jobs {
        LiveIsDispatched(st, row.id);
      }
    }
    assert after.jobs.Keys == st.jobs.Keys + {row.id};
    assert multiset(after.jobs.Keys) == multiset(st.jobs.Keys) + multiset{row.id};
    assert multiset(after.dispatched) == multiset(st.dispatched) + multiset{row.id};
    assert multiset(st.dispatched)[row.id] == 0;
  }

  lemma InsertOk(reg: Registry, st: Fleet, row: Row)
    requires FleetOk(reg, st) && row.attempts == 0 && row.reservedAt.None?
    ensures FleetOk(reg, Insert(st, row))
  {
    if row.id !in st.dispatched {
      InsertConserves(st, row);
      NoClaims(st.claims, row.id);
      assert row.id !in st.jobs;
    }
  }

  // ----- Claim -----------------------------------------------------------------------------------

  lemma ClaimRows(st: Fleet, worker: WorkerId, queues: seq<string>, now: Time, locked: set<JobId>)
    requires RowsOk(st) && HoldingOk(st)
    ensures RowsOk(Claim(st, worker, queues, now, locked)) && HoldingOk(Claim(st, worker, queues, now, locked))
  {
  }

  lemma ClaimConserves(st: Fleet, worker: WorkerId, queues: seq<string>, now: Time, locked: set<JobId>)
    requires Conserved(st)
    ensures Conserved(Claim(st, worker, queues, now, locked))
  {
    assert Claim(st, worker, queues, now, locked).jobs.Keys == st.jobs.Keys;
  }

  lemma ClaimClaims(st: Fleet, worker: WorkerId, queues: seq<string>, now: Time, locked: set<JobId>)
    requires ClaimsOk(st) && Conserved(st)
    ensures ClaimsOk(Claim(st, worker, queues, now, locked))
  {
    var after := Claim(st, worker, queues, now, locked);
    var ids := Candidates(st.jobs, queues, now, locked);
    if worker !in st.holding && ids != {} {
      var id := Least(ids);
      var claim := Claimed(worker, id, now, st.jobs[id].availableAt);
      forall k
        ensures ClaimsOf(after.claims, k) == ClaimsOf(st.claims, k) + if id == k then 1 else 0
      {
        ClaimsAppend(st.claims, claim, k);
      }
      forall i | 0 <= i < |st.failed|
        ensures st.failed[i].origin != id
      {
        DeadIsNotLive(st, i, id);
      }
    }
  }

  lemma {:induction false} OriginAt(failed: seq<FailedRow>, i: nat)
    requires i < |failed|
    ensures |Origins(failed)| == |failed| && Origins(failed)[i] == failed[i].origin
  {
    if i < |failed| - 1 {
      OriginAt(failed[..|failed| - 1], i);
    } else if |failed| > 1 {
      OriginAt(failed[..|failed| - 1], 0);
    }
  }

  lemma DeadIsNotLive(st: Fleet, i: nat, id: JobId)
    requires Conserved(st) && i < |st.failed| && id in st.jobs
    ensures st.failed[i].origin != id
  {
    OriginAt(st.failed, i);
    var origin := st.failed[i].origin;
    assert origin in Origins(st.failed);
    assert multiset(Origins(st.failed))[origin] >= 1;
    assert multiset(st.dispatched)[origin] <= 1;
    assert multiset(st.jobs.Keys)[origin] == 0;
  }

  lemma ClaimOk(reg: Registry, st: Fleet, worker: WorkerId, queues: seq<string>, now: Time, locked: set<JobId>)
    requires FleetOk(reg, st)
    ensures FleetOk(reg, Claim(st, worker, queues, now, locked))
  {
    var after := Claim(st, worker, queues, now, locked);
    assert RowsOk(after) && HoldingOk(after) by {
      ClaimRows(st, worker, queues, now, locked);
    }
    assert Conserved(after) by {
      ClaimConserves(st, worker, queues, now, locked);
    }
    assert ClaimsOk(after) by {
      ClaimClaims(st, worker, queues, now, locked);
    }
    assert AttemptsOk(reg, after) by {
      ClaimAttempts(reg, st, worker, queues, now, locked);
    }
    assert HeldOnce(after) && FailedOk(reg, after) by {
      ClaimHeld(reg, st, worker, queues, now, locked);
    }
  }

  lemma ClaimHeld(reg: Registry, st: Fleet, worker: WorkerId, queues: seq<string>, now: Time, locked: set<JobId>)
    requires HeldOnce(st) && FailedOk(reg, st)
    ensures HeldOnce(Claim(st, worker, queues, now, locked)) && FailedOk(reg, Claim(st, worker, queues, now, locked))
  {
  }

  lemma ClaimAttempts(reg: Registry, st: Fleet, worker: WorkerId, queues: seq<string>, now: Time, locked: set<JobId>)
    requires AttemptsOk(reg, st)
    ensures AttemptsOk(reg, Claim(st, worker, queues, now, locked))
  {
  }

  // ----- Finish ----------------------------------------------------------------------------------

  lemma DeleteKeys(st: Fleet, id: JobId)
    requires id in st.jobs
    ensures multiset(st.jobs.Keys) == multiset(DeleteRow(st, id).jobs.Keys) + multiset{id}
  {
    assert st.jobs.Keys == DeleteRow(st, id).jobs.Keys + {id};
  }

  lemma CompleteConserves(st: Fleet, row: Row)
    requires Conserved(st) && row.id in st.jobs
    ensures Conserved(Settle(st, row, Complete, 0.0))
  {
    var after := Settle(st, row, Complete, 0.0);
    DeleteKeys(st, row.id);
    assert multiset(after.completed) == multiset(st.completed) + multiset{row.id};
  }

  lemma DropConserves(st: Fleet, row: Row)
    requires Conserved(st) && row.id in st.jobs
    ensures Conserved(Settle(st, row, Drop, 0.0))
  {
    var after := Settle(st, row, Drop, 0.0);
    DeleteKeys(st, row.id);
    assert multiset(after.dropped) == multiset(st.dropped) + multiset{row.id};
  }

  lemma BurialConserves(st: Fleet, row: Row, exception: string)
    requires Conserved(st) && row.id in st.jobs
    ensures Conserved(Settle(st, row, DeadLetter(exception), 0.0))
  {
    var after := Settle(st, row, DeadLetter(exception), 0.0);
    DeleteKeys(st, row.id);
    OriginsAppend(st.failed, Buried(row, exception));
    assert multiset(Origins(after.failed)) == multiset(Origins(st.failed)) + multiset{row.id};
  }

  lemma SettleConserves(st: Fleet, row: Row, verdict: Verdict, now: Time)
    requires Conserved(st) && row.id in st.jobs
    ensures Conserved(Settle(st, row, verdict, now))
  {
    match verdict {
      case Complete => CompleteConserves(st, row);
      case Drop => DropConserves(st, row);
      case DeadLetter(exception) => BurialConserves(st, row, exception);
      case RetryAfter(_) => assert Settle(st, row, verdict, now).jobs.Keys == st.jobs.Keys;
    }
  }

  /** The holder lets go, and what is left of its row is unreserved or gone. */
  lemma FinishRows(reg: Registry, options: WorkerOptions, st: Fleet, worker: WorkerId, handled: Result<(), string>,
      now: Time)
    requires RowsOk(st) && HoldingOk(st)
    ensures RowsOk(Finish(reg, options, st, worker, handled, now)) &&
      HoldingOk(Finish(reg, options, st, worker, handled, now))
  {
  }

  lemma FinishClaims(reg: Registry, options: WorkerOptions, st: Fleet, worker: WorkerId, handled: Result<(), string>,
      now: Time)
    requires RowsOk(st) && HoldingOk(st) && ClaimsOk(st)
    ensures ClaimsOk(Finish(reg, options, st, worker, handled, now))
  {
  }

  lemma FinishAttempts(reg: Registry, options: WorkerOptions, st: Fleet, worker: WorkerId, handled: Result<(), string>,
      now: Time)
    requires RowsOk(st) && HoldingOk(st) && AttemptsOk(reg, st) && FailedOk(reg, st) && ClaimsOk(st)
    ensures AttemptsOk(reg, Finish(reg, options, st, worker, handled, now))
  {
  }

  lemma FinishConserves(reg: Registry, options: WorkerOptions, st: Fleet, worker: WorkerId, handled: Result<(),
      string>, now: Time)
    requires HoldingOk(st) && Conserved(st)
    ensures Conserved(Finish(reg, options, st, worker, handled, now))
  {
    if worker in st.holding {
      var row := st.holding[worker];
      SettleConserves(st, row, Judge(reg, options, row, handled), now);
    }
  }

  lemma FinishFailed(reg: Registry, options: WorkerOptions, st: Fleet, worker: WorkerId, handled: Result<(), string>,
      now: Time)
    requires HeldOnce(st) && HoldingOk(st) && AttemptsOk(reg, st) && FailedOk(reg, st)
    ensures FailedOk(reg, Finish(reg, options, st, worker, handled, now))
    ensures HeldOnce(Finish(reg, options, st, worker, handled, now))
  {
  }

  lemma FinishOk(reg: Registry, options: WorkerOptions, st: Fleet, worker: WorkerId, handled: Result<(), string>,
      now: Time)
    requires FleetOk(reg, st)
    ensures FleetOk(reg, Finish(reg, options, st, worker, handled, now))
  {
    var after := Finish(reg, options, st, worker, handled, now);
    assert RowsOk(after) && HoldingOk(after) by {
      FinishRows(reg, options, st, worker, handled, now);
    }
    assert Conserved(after) by {
      FinishConserves(reg, options, st, worker, handled, now);
    }
    assert ClaimsOk(after) by {
      FinishClaims(reg, options, st, worker, handled, now);
    }
    assert AttemptsOk(reg, after) by {
      FinishAttempts(reg, options, st, worker, handled, now);
    }
    assert FailedOk(reg, after) && HeldOnce(after) by {
      FinishFailed(reg, options, st, worker, handled, now);
    }
  }

  lemma CrashOk(reg: Registry, st: Fleet, worker: WorkerId)
    requires FleetOk(reg, st)
    ensures FleetOk(reg, Release(st, worker))
  {
  }

  // ----- All runs --------------------------------------------------------------------------------

  lemma NextOk(reg: Registry, options: Options, st: Fleet, event: Event)
    requires FleetOk(reg, st)
    ensures FleetOk(reg, Next(reg, options, st, event))
  {
    match event {
      case DispatchEvent(id, queue, jobName, payload, maxAttempts, delay, now) =>
        InsertOk(reg, st, NewRow(id, queue, jobName, payload, maxAttempts, delay, now));
      case ClaimEvent(worker, now, locked) => ClaimOk(reg, st, worker, options(worker).queues, now, locked);
      case FinishEvent(worker, handled, now) => FinishOk(reg, options(worker), st, worker, handled, now);
      case CrashEvent(worker) => CrashOk(reg, st, worker);
    }
  }

  lemma EmptyOk(reg: Registry)
    ensures FleetOk(reg, EMPTY)
  {
  }

  lemma {:induction false} ReachableOk(reg: Registry, options: Options, events: seq<Event>)
    ensures FleetOk(reg, Exec(reg, options, events))
  {
    if events == [] {
      EmptyOk(reg);
    } else {
      ReachableOk(reg, options, events[..|events| - 1]);
      NextOk(reg, options, Exec(reg, options, events[..|events| - 1]), events[|events| - 1]);
    }
  }

  // ----- The promises ----------------------------------------------------------------------------

  /** Exclusion: no row is ever held by two workers, and a held row is reserved, so no claim takes it. */
  lemma NoRowHeldTwice(reg: Registry, options: Options, events: seq<Event>, v: WorkerId, w: WorkerId)
    requires var st := Exec(reg, options, events);
      v in st.holding && w in st.holding && v != w
    ensures var st := Exec(reg, options, events);
      && st.holding[v].id != st.holding[w].id
      && st.holding[v].id in st.jobs
      && forall queues: seq<string>, now: Time, locked: set<JobId> ::
           st.holding[v].id !in Candidates(st.jobs, queues, now, locked)
  {
    ReachableOk(reg, options, events);
  }

  /** Nothing is claimed before it is available. */
  lemma {:induction false} ClaimsAreDue(reg: Registry, options: Options, events: seq<Event>, i: nat)
    requires i < |Exec(reg, options, events).claims|
    ensures var claim := Exec(reg, options, events).claims[i];
      claim.availableAt <= claim.at
  {
    ReachableOk(reg, options, events);
  }

  /** Conservation: a dispatched job is in exactly one of the four places, exactly once; nothing
      else is in any of them. A row left reserved by a crashed worker counts as live. */
  lemma EachJobInOnePlace(reg: Registry, options: Options, events: seq<Event>, id: JobId)
    ensures var st := Exec(reg, options, events);
      var places := (if id in st.jobs then 1 else 0) + multiset(st.completed)[id] + multiset(Origins(st.failed))[id]
        + multiset(st.dropped)[id];
      places == (if id in st.dispatched then 1 else 0)
  {
    ReachableOk(reg, options, events);
    var st := Exec(reg, options, events);
    assert multiset(st.jobs.Keys)[id] == if id in st.jobs then 1 else 0;
    assert multiset(st.dispatched)[id] <= 1;
  }

  /** Dead letters and terminally failed jobs are in bijection: two dead letters never come from
      one job, and a dead-lettered job is no longer anywhere else. */
  lemma DeadLettersAreDistinct(reg: Registry, options: Options, events: seq<Event>, i: nat, j: nat)
    requires i < j < |Exec(reg, options, events).failed|
    ensures Exec(reg, options, events).failed[i].origin != Exec(reg, options, events).failed[j].origin
  {
    ReachableOk(reg, options, events);
    var failed := Exec(reg, options, events).failed;
    OriginAt(failed, i);
    OriginAt(failed, j);
    var origins := Origins(failed);
    var id := origins[i];
    assert multiset(origins)[id] <= 1 by {
      assert multiset(Exec(reg, options, events).dispatched)[id] <= 1;
    }
    OnceOnly(origins, i, j);
  }

  lemma OnceOnly(ids: seq<JobId>, i: nat, j: nat)
    requires i < j < |ids| && multiset(ids)[ids[i]] <= 1
    ensures ids[i] != ids[j]
  {
    assert ids == ids[..j] + [ids[j]] + ids[j + 1..];
    assert ids[i] in ids[..j];
    assert multiset(ids) == multiset(ids[..j]) + multiset{ids[j]} + multiset(ids[j + 1..]);
  }

  /** Only jobs of a known name are dead-lettered, and only after exactly as many claims as their
      limit allows: the class's limit if it sets one, else the one stored at dispatch, and one
      claim if that is below one. */
  lemma DeadLettersAreExhausted(reg: Registry, options: Options, events: seq<Event>, i: nat)
    requires i < |Exec(reg, options, events).failed|
    ensures var st := Exec(reg, options, events);
      Exhausted(reg, st.failed[i]) && st.failed[i].attempts == ClaimsOf(st.claims, st.failed[i].origin)
  {
    ReachableOk(reg, options, events);
  }

  /** A job whose class sets a limit is tried at most that often, or once if the limit is below
      one; the limit asked for at dispatch does not count then. Without a class limit the one
      stored in the row counts. The attempts a row or a dead letter reports are its claims. */
  lemma AttemptsAreBounded(reg: Registry, options: Options, events: seq<Event>, id: JobId)
    requires id in Exec(reg, options, events).jobs && Exec(reg, options, events).jobs[id].jobName in reg
    ensures var st := Exec(reg, options, events);
      var row := st.jobs[id];
      && row.attempts == ClaimsOf(st.claims, id)
      && row.attempts <= Tries(Limit(reg[row.jobName], row.maxAttempts))
  {
    ReachableOk(reg, options, events);
  }
}
