/** The durable engine's data: workflow nodes, run rows, journal rows and queued jobs. */
module DurableTypes {
  import opened Prelude

  type RunId = nat

  /** What a callback can see besides its context: the clock, and anything else that
      differs from one delivery to the next. A pure callback ignores it. */
  datatype World = World(nowMs: int, nonce: nat)

  datatype Ctx = Ctx(input: Value, results: map<string, Value>, runId: RunId, attempt: nat)

  type Handler = (Ctx, World) -> Result<Value, string>
  type Compensator = (Ctx, World) -> Result<(), string>
  type Backoff = (nat, World) -> real

  datatype ChildSpec = ChildSpec(workflow: string, input: Value)

  datatype Node =
    | Step(name: string, handler: Handler, compensate: Option<Compensator>, maxAttempts: int, backoff: Backoff)
    | Sleep(name: string, delay: (Ctx, World) -> real)
    | WaitForSignal(name: string, signalName: (Ctx, World) -> string)
    | Parallel(name: string, branches: seq<(string, Handler)>, maxAttempts: int, backoff: Backoff)
    | Route(name: string, select: (Ctx, World) -> Result<string, string>, branches: seq<(string, Handler)>,
        maxAttempts: int, backoff: Backoff)
    | Loop(name: string, condition: (Ctx, nat, World) -> Result<bool, string>,
        body: (Ctx, nat, World) -> Result<Value, string>, maxIterations: int, maxAttempts: int, backoff: Backoff)
    | ChildWorkflow(name: string, start: (Ctx, World) -> Result<ChildSpec, string>, pollIntervalSec: real)

  datatype Workflow = Workflow(name: string, steps: seq<Node>)

  type Registry = map<string, Workflow>

  ghost predicate DistinctNames(nodes: seq<Node>) {
    forall i, j :: 0 <= i < j < |nodes| ==> nodes[i].name != nodes[j].name
  }

  datatype Slot = Slot(iteration: nat, results: seq<Value>)

  /** The `state` column. `awaitingSignals` keeps its entries in insertion order. */
  datatype State = State(
    results: map<string, Value>,
    stepAttempts: map<string, nat>,
    awaitingSignals: seq<(string, string)>,
    loopState: map<string, Slot>,
    childRunIds: map<string, RunId>,
    sleepMarks: map<string, int>)

  datatype Status = Pending | Running | Waiting | Compensating | Completed | Failed

  datatype Run = Run(
    workflow: string,
    input: Value,
    status: Status,
    state: State,
    currentStep: nat,
    result: Option<map<string, Value>>,
    error: Option<string>)

  datatype RowStatus = RowCompleted | RowFailed

  datatype JournalRow = JournalRow(
    runId: RunId, stepName: string, status: RowStatus, result: Value, error: Option<string>, attempts: nat)

  datatype Job = AdvanceJob(runId: RunId, delaySec: real) | CompensateJob(runId: RunId)

  /** What the engine does to the outside world, in order. */
  datatype Effect =
    | CompensatorCalled(runId: RunId, step: string, ctx: Ctx)
    | CompensatorThrew(runId: RunId, step: string, error: string)
    | ChildStarted(runId: RunId, step: string, child: RunId)
    | SignalAccepted(runId: RunId, step: string, payload: Value)

  datatype Error = RunNotFound(runId: RunId) | NotRegistered(workflow: string)

  /** The tables, the job queue and the record of outside effects. */
  datatype Db = Db(
    runs: map<RunId, Run>,
    journal: seq<JournalRow>,
    jobs: map<nat, Job>,
    nextRun: RunId,
    nextJob: nat,
    log: seq<Effect>)

  datatype Outcome =
    | NodeDone(value: Value, attempt: nat)
    | Retry(attempt: nat, delaySec: real)
    | Exhausted(attempt: nat, error: string)
    | Parked(wakeAfter: Option<real>)

  const EMPTY_STATE := State(map[], map[], [], map[], map[], map[])

  const EMPTY_DB := Db(map[], [], map[], 0, 0, [])

  const CHILD_FALLBACK_ERROR := "child workflow failed without error message"

  function IterKey(name: string, iteration: nat): string {
    name + "#" + NatText(iteration)
  }

  function LoopBoundError(maxIterations: int): string {
    "loop exceeded maxIterations (" + IntText(maxIterations) + ")"
  }

  function ChildGoneError(child: RunId): string {
    "child workflow run \"" + NatText(child) + "\" disappeared"
  }

  function BranchKeys(branches: seq<(string, Handler)>): seq<string> {
    seq(|branches|, i requires 0 <= i < |branches| => branches[i].0)
  }

  function UnknownBranchError(name: string, key: string, branches: seq<(string, Handler)>): string {
    "DurableRunner: route \"" + name + "\" returned unknown branch \"" + key + "\". Branches: "
    + Join(BranchKeys(branches), ", ")
  }

  function AtLeast(floor: real, x: real): real {
    if x < floor then floor else x
  }

  /** `Object.entries` lookups on the awaiting-signal record. */
  function SetAwaiting(awaiting: seq<(string, string)>, node: string, signal: string): seq<(string, string)> {
    if awaiting == [] then [(node, signal)]
    else if awaiting[0].0 == node then [(node, signal)] + awaiting[1..]
    else [awaiting[0]] + SetAwaiting(awaiting[1..], node, signal)
  }

  function FindAwaiting(awaiting: seq<(string, string)>, signal: string): Option<string> {
    if awaiting == [] then None
    else if awaiting[0].1 == signal then Some(awaiting[0].0)
    else FindAwaiting(awaiting[1..], signal)
  }

  function DropAwaiting(awaiting: seq<(string, string)>, node: string): seq<(string, string)> {
    if awaiting == [] then []
    else if awaiting[0].0 == node then awaiting[1..]
    else [awaiting[0]] + DropAwaiting(awaiting[1..], node)
  }

  /** The journal lookup by run and step name: the first row in insertion order. */
  function Lookup(journal: seq<JournalRow>, runId: RunId, name: string): Option<JournalRow> {
    if journal == [] then None
    else if journal[0].runId == runId && journal[0].stepName == name then Some(journal[0])
    else Lookup(journal[1..], runId, name)
  }

  /** The last node declared under a name, as a `Map` keeps it. */
  function FindNode(steps: seq<Node>, name: string): Option<Node> {
    if steps == [] then None
    else if steps[|steps| - 1].name == name then Some(steps[|steps| - 1])
    else FindNode(steps[..|steps| - 1], name)
  }

  function WithoutKey<V>(m: map<string, V>, key: string): map<string, V> {
    m - {key}
  }
}
