/** The minute scheduler: servers with their own clocks and one shared table of last runs. */
module Scheduler {
  import opened Prelude

  /** Milliseconds since the epoch. */
  type Time = int

  const MINUTE := 60000

  /** The start of the minute a time lies in. */
  function FloorToMinute(t: Time): Time {
    t - t % MINUTE
  }

  function NextMinuteBoundary(t: Time): Time {
    FloorToMinute(t) + MINUTE
  }

  predicate IsBoundary(t: Time) {
    t % MINUTE == 0
  }

  /** The floor is the last boundary not after a time, and the next boundary comes after it. */
  lemma FloorIsLastBoundary(t: Time, b: Time)
    requires IsBoundary(b)
    ensures IsBoundary(FloorToMinute(t)) && FloorToMinute(t) <= t < NextMinuteBoundary(t)
    ensures b <= t <==> b <= FloorToMinute(t)
    ensures FloorToMinute(b) == b
  {
    if b <= t {
      var q := t / MINUTE;
      assert b == MINUTE * (b / MINUTE) && t == MINUTE * q + t % MINUTE;
      assert b / MINUTE <= q;
    }
  }

  datatype Entry = Entry(name: string, cron: Time -> bool, jobName: string, payload: Value, oneServer: bool)

  /** A dispatched job. One-server dispatches carry the boundary they were made for. */
  datatype Sent = Sent(name: string, jobName: string, payload: Value, boundary: Option<Time>)

  /** `strav_scheduler_runs` and the jobs dispatched so far. */
  datatype State = State(lastRun: map<string, Time>, sent: seq<Sent>)

  const START := State(map[], [])

  // ----- One dispatch -------------------------------------------------------------------------------------------

  function SentFor(entry: Entry, boundary: Option<Time>): Sent {
    Sent(entry.name, entry.jobName, entry.payload, boundary)
  }

  /** This boundary or a later one is recorded for the entry's name. */
  predicate Recorded(st: State, entry: Entry, boundary: Time) {
    entry.name in st.lastRun && st.lastRun[entry.name] >= boundary
  }

  /** Under the entry's lock: dispatch and record, unless the boundary or a later one was already
      recorded. If the queue throws, neither happens. */
  function DispatchOneServer(st: State, entry: Entry, boundary: Time, queueUp: bool): State {
    if Recorded(st, entry, boundary) then st
    else if !queueUp then st
    else State(st.lastRun[entry.name := boundary], st.sent + [SentFor(entry, Some(boundary))])
  }

  function DispatchPlain(st: State, entry: Entry, queueUp: bool): State {
    if queueUp then st.(sent := st.sent + [SentFor(entry, None)]) else st
  }

  function Dispatch(st: State, entry: Entry, boundary: Time, queueUp: bool): State {
    if entry.oneServer then DispatchOneServer(st, entry, boundary, queueUp) else DispatchPlain(st, entry, queueUp)
  }

  /** A tick dispatches the entries that match, in order; a failing one does not stop the rest. */
  function TickFrom(st: State, entries: seq<Entry>, boundary: Time, queueUp: Entry -> bool): State
    decreases entries
  {
    if entries == [] then st
    else
      var st1 := if entries[0].cron(boundary) then Dispatch(st, entries[0], boundary, queueUp(entries[0])) else st;
      TickFrom(st1, entries[1..], boundary, queueUp)
  }

  /** One entry's share of a tick: a job for the entry, with its payload, if its cron matches, the
      queue takes it, and a one-server entry has no record of this boundary or a later one. */
  predicate Shares(before: State, entry: Entry, boundary: Time, queueUp: bool, after: State) {
    if entry.cron(boundary) && queueUp
       && (entry.oneServer && entry.name in before.lastRun ==> before.lastRun[entry.name] < boundary)
    then
      && after.sent == before.sent
           + [Sent(entry.name, entry.jobName, entry.payload, if entry.oneServer then Some(boundary) else None)]
      && after.lastRun == if entry.oneServer then before.lastRun[entry.name := boundary] else before.lastRun
    else after == before
  }

  lemma {:induction false} TickInOrder(st: State, a: seq<Entry>, b: seq<Entry>, boundary: Time, queueUp: Entry -> bool)
    ensures TickFrom(st, a + b, boundary, queueUp) == TickFrom(TickFrom(st, a, boundary, queueUp), b, boundary, queueUp)
    decreases a
  {
    if a == [] {
      assert a + b == b;
    } else {
      var st1 := if a[0].cron(boundary) then Dispatch(st, a[0], boundary, queueUp(a[0])) else st;
      assert (a + b)[0] == a[0] && (a + b)[1..] == a[1..] + b;
      TickInOrder(st1, a[1..], b, boundary, queueUp);
    }
  }

  /** A tick gives every entry its share, one after the other. */
  lemma EachEntryShares(st: State, entries: seq<Entry>, i: nat, boundary: Time, queueUp: Entry -> bool)
    requires i < |entries|
    ensures Shares(TickFrom(st, entries[..i], boundary, queueUp), entries[i], boundary, queueUp(entries[i]),
      TickFrom(st, entries[..i + 1], boundary, queueUp))
    ensures TickFrom(st, [], boundary, queueUp) == st
  {
    assert entries[..i + 1] == entries[..i] + [entries[i]];
    TickInOrder(st, entries[..i], [entries[i]], boundary, queueUp);
    assert [entries[i]][1..] == [];
  }

  // ----- Runs of all servers --------------------------------------------------------------------------------------

  /** One server, at its own clock, dispatches one entry: as part of a tick or by name. Ticks of
      different servers interleave at this grain. */
  datatype Event = Event(entry: Entry, clock: Time, queueUp: bool)

  function Next(st: State, event: Event): State {
    Dispatch(st, event.entry, FloorToMinute(event.clock), event.queueUp)
  }

  function Exec(events: seq<Event>): State {
    if events == [] then START else Next(Exec(events[..|events| - 1]), events[|events| - 1])
  }

  /** The boundaries of a name's one-server dispatches, in order. */
  function Boundaries(sent: seq<Sent>, name: string): seq<Time> {
    if sent == [] then []
    else
      var last := sent[|sent| - 1];
      Boundaries(sent[..|sent| - 1], name)
      + (if last.name == name && last.boundary.Some? then [last.boundary.value] else [])
  }

  predicate Increasing(times: seq<Time>) {
    forall i, j :: 0 <= i < j < |times| ==> times[i] < times[j]
  }

  /** A name has a last run exactly if it was dispatched, and it is the latest boundary. */
  predicate NameOk(st: State, name: string) {
    var times := Boundaries(st.sent, name);
    && Increasing(times)
    && (forall i :: 0 <= i < |times| ==> IsBoundary(times[i]))
    && (name in st.lastRun <==> times != [])
    && (times != [] ==> st.lastRun[name] == times[|times| - 1])
  }

  lemma BoundariesAppend(sent: seq<Sent>, one: Sent, name: string)
    ensures Boundaries(sent + [one], name)
      == Boundaries(sent, name) + (if one.name == name && one.boundary.Some? then [one.boundary.value] else [])
  {
    assert (sent + [one])[..|sent|] == sent;
  }

  lemma IncreasingAppend(times: seq<Time>, t: Time)
    requires Increasing(times) && (times != [] ==> times[|times| - 1] < t)
    ensures Increasing(times + [t])
  {
    if times != [] {
      forall i | 0 <= i < |times|
        ensures times[i] < t
      {
        assert i < |times| - 1 ==> times[i] < times[|times| - 1];
      }
    }
  }

  lemma PlainKeeps(st: State, entry: Entry, queueUp: bool, name: string)
    requires NameOk(st, name)
    ensures NameOk(DispatchPlain(st, entry, queueUp), name)
  {
    BoundariesAppend(st.sent, SentFor(entry, None), name);
    NilRight(Boundaries(st.sent, name));
  }

  lemma OneServerKeeps(st: State, entry: Entry, boundary: Time, name: string)
    requires NameOk(st, name) && IsBoundary(boundary)
    requires entry.name in st.lastRun ==> st.lastRun[entry.name] < boundary
    ensures NameOk(State(st.lastRun[entry.name := boundary], st.sent + [SentFor(entry, Some(boundary))]), name)
  {
    var times := Boundaries(st.sent, name);
    BoundariesAppend(st.sent, SentFor(entry, Some(boundary)), name);
    if entry.name == name {
      IncreasingAppend(times, boundary);
    } else {
      NilRight(times);
    }
  }

  lemma DispatchKeeps(st: State, entry: Entry, boundary: Time, queueUp: bool, name: string)
    requires NameOk(st, name) && IsBoundary(boundary)
    ensures NameOk(Dispatch(st, entry, boundary, queueUp), name)
  {
    if !entry.oneServer {
      PlainKeeps(st, entry, queueUp, name);
    } else if queueUp && (entry.name in st.lastRun ==> st.lastRun[entry.name] < boundary) {
      OneServerKeeps(st, entry, boundary, name);
    }
  }

  /** Under any interleaving of any number of servers with arbitrary clocks, the boundaries at
      which a one-server name is dispatched are strictly increasing minute boundaries, and the
      stored last run is always the last of them. */
  lemma {:induction false} FleetOk(events: seq<Event>, name: string)
    ensures NameOk(Exec(events), name)
  {
    if events != [] {
      var event := events[|events| - 1];
      FleetOk(events[..|events| - 1], name);
      FloorIsLastBoundary(event.clock, 0);
      DispatchKeeps(Exec(events[..|events| - 1]), event.entry, FloorToMinute(event.clock), event.queueUp, name);
    }
  }

  /** At most one dispatch per one-server name and minute. */
  lemma OncePerMinute(events: seq<Event>, name: string, i: nat, j: nat)
    requires i < |Boundaries(Exec(events).sent, name)| && j < |Boundaries(Exec(events).sent, name)|
    requires Boundaries(Exec(events).sent, name)[i] == Boundaries(Exec(events).sent, name)[j]
    ensures i == j
  {
    FleetOk(events, name);
  }

  /** A one-server dispatch is skipped only if its minute or a later one is already recorded, or
      the queue throws; otherwise it happens, and no other name's last run changes. */
  lemma DispatchedUnlessRecorded(events: seq<Event>, event: Event, other: string)
    requires event.entry.oneServer
    ensures var st, boundary := Exec(events), FloorToMinute(event.clock);
      var times := Boundaries(st.sent, event.entry.name);
      var due := times == [] || times[|times| - 1] < boundary;
      && Boundaries(Next(st, event).sent, event.entry.name)
        == (if due && event.queueUp then times + [boundary] else times)
      && (other != event.entry.name ==>
            Boundaries(Next(st, event).sent, other) == Boundaries(st.sent, other)
            && (other in Next(st, event).lastRun <==> other in st.lastRun)
            && (other in st.lastRun ==> Next(st, event).lastRun[other] == st.lastRun[other]))
  {
    FleetOk(events, event.entry.name);
    var sent := SentFor(event.entry, Some(FloorToMinute(event.clock)));
    BoundariesAppend(Exec(events).sent, sent, event.entry.name);
    BoundariesAppend(Exec(events).sent, sent, other);
    NilRight(Boundaries(Exec(events).sent, other));
  }

  // ----- The scheduler as it is written ----------------------------------------------------------

  /** The tables all servers share. */
  class Tables {
    var lastRun: map<string, Time>
    var sent: seq<Sent>

    constructor ()
      ensures AsState() == START
    {
      lastRun, sent := map[], [];
    }

    function AsState(): State
      reads this
    {
      State(lastRun, sent)
    }
  }

  datatype ScheduleOptions = ScheduleOptions(
    name: Option<string>, cron: Time -> bool, jobName: string, payload: Value, oneServer: Option<bool>)

  function FindEntry(entries: seq<Entry>, name: string): Option<Entry> {
    if entries == [] then None
    else if entries[0].name == name then Some(entries[0])
    else FindEntry(entries[1..], name)
  }

  /** The entry run by name is the first registered under it. */
  lemma {:induction false} FirstEntryFound(entries: seq<Entry>, name: string, i: nat)
    requires i < |entries| && entries[i].name == name && forall j :: 0 <= j < i ==> entries[j].name != name
    ensures FindEntry(entries, name) == Some(entries[i])
  {
    if i > 0 {
      assert entries[0].name != name;
      FirstEntryFound(entries[1..], name, i - 1);
    }
  }

  class Scheduler {
    const tables: Tables
    var entries: seq<Entry>

    constructor (tables: Tables)
      ensures this.tables == tables && entries == []
    {
      this.tables, entries := tables, [];
    }

    method Schedule(options: ScheduleOptions)
      modifies this`entries
      ensures |entries| == |old(entries)| + 1 && entries[..|old(entries)|] == old(entries)
      ensures var entry := entries[|old(entries)|];
        && entry.name == (if options.name.Some? then options.name.value else options.jobName)
        && entry.oneServer == (options.oneServer == Some(true))
        && entry.cron == options.cron && entry.jobName == options.jobName && entry.payload == options.payload
    {
      var name := if options.name.Some? then options.name.value else options.jobName;
      var oneServer := if options.oneServer.Some? then options.oneServer.value else false;
      entries := entries + [Entry(name, options.cron, options.jobName, options.payload, oneServer)];
    }

    /** `threw` says that the queue threw; the transaction is then rolled back. */
    method DispatchLocked(entry: Entry, boundary: Time, queueUp: bool) returns (threw: bool)
      modifies tables
      ensures tables.AsState() == DispatchOneServer(old(tables.AsState()), entry, boundary, queueUp)
      ensures threw <==> !queueUp && !Recorded(old(tables.AsState()), entry, boundary)
    {
      if entry.name in tables.lastRun && tables.lastRun[entry.name] >= boundary {
        return false;
      }
      if !queueUp {
        return true;
      }
      tables.sent := tables.sent + [Sent(entry.name, entry.jobName, entry.payload, Some(boundary))];
      tables.lastRun := tables.lastRun[entry.name := boundary];
      return false;
    }

    method DispatchDirectly(entry: Entry, queueUp: bool) returns (threw: bool)
      modifies tables
      ensures tables.AsState() == DispatchPlain(old(tables.AsState()), entry, queueUp) && threw == !queueUp
    {
      if !queueUp {
        return true;
      }
      tables.sent := tables.sent + [Sent(entry.name, entry.jobName, entry.payload, None)];
      return false;
    }

    method Tick(now: Time, queueUp: Entry -> bool)
      modifies tables
      ensures tables.AsState() == TickFrom(old(tables.AsState()), entries, FloorToMinute(now), queueUp)
    {
      var boundary := FloorToMinute(now);
      var i := 0;
      while i < |entries|
        invariant 0 <= i <= |entries|
        invariant TickFrom(old(tables.AsState()), entries, boundary, queueUp)
          == TickFrom(tables.AsState(), entries[i..], boundary, queueUp)
      {
        var entry := entries[i];
        if entry.cron(boundary) {
          var threw: bool;
          if entry.oneServer {
            threw := DispatchLocked(entry, boundary, queueUp(entry));
          } else {
            threw := DispatchDirectly(entry, queueUp(entry));
          }
        }
        i := i + 1;
      }
    }

    /** Dispatches the first entry of a name, whatever its cron says; `false` if there is none. */
    method RunEntry(name: string, now: Time, queueUp: bool) returns (known: bool, threw: bool)
      modifies tables
      ensures known <==> exists i :: 0 <= i < |entries| && entries[i].name == name
      ensures known ==>
        && FindEntry(entries, name).Some?
        && tables.AsState()
          == Dispatch(old(tables.AsState()), FindEntry(entries, name).value, FloorToMinute(now), queueUp)
      ensures !known ==> tables.AsState() == old(tables.AsState()) && !threw
      ensures known ==>
        var entry := FindEntry(entries, name).value;
        threw <==> !queueUp && !(entry.oneServer && Recorded(old(tables.AsState()), entry, FloorToMinute(now)))
    {
      var i := 0;
      while i < |entries|
        invariant 0 <= i <= |entries| && forall k :: 0 <= k < i ==> entries[k].name != name
        invariant FindEntry(entries, name) == FindEntry(entries[i..], name)
        invariant tables.AsState() == old(tables.AsState())
      {
        var entry := entries[i];
        if entry.name == name {
          if entry.oneServer {
            threw := DispatchLocked(entry, FloorToMinute(now), queueUp);
          } else {
            threw := DispatchDirectly(entry, queueUp);
          }
          return true, threw;
        }
        i := i + 1;
      }
      return false, false;
    }
  }

  /** A tick is a run of dispatch events at the same boundary, so what holds of all runs holds
      while ticks interleave. */
  lemma {:induction false} TickIsEvents(events: seq<Event>, entries: seq<Entry>, now: Time, queueUp: Entry -> bool)
    returns (more: seq<Event>)
    ensures TickFrom(Exec(events), entries, FloorToMinute(now), queueUp) == Exec(events + more)
    ensures forall i :: 0 <= i < |more| ==> more[i].clock == now && more[i].entry in entries
    decreases entries
  {
    if entries == [] {
      more := [];
      NilRight(events);
    } else if entries[0].cron(FloorToMinute(now)) {
      var event := Event(entries[0], now, queueUp(entries[0]));
      assert (events + [event])[..|events|] == events;
      var rest := TickIsEvents(events + [event], entries[1..], now, queueUp);
      more := [event] + rest;
      Assoc(events, [event], rest);
    } else {
      more := TickIsEvents(events, entries[1..], now, queueUp);
    }
  }
}
