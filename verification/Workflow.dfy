/** The in-process saga runner: `Workflow.run` and its rollback. */
module Workflow {
  import opened Prelude

  datatype Ctx = Ctx(input: Value, results: map<string, Value>)

  /** What a handler throws: an error of its own, or a workflow error from a nested run. */
  datatype Thrown = Plain(message: string) | Nested(error: WorkflowError)

  datatype WorkflowError = WorkflowError(step: string, cause: string)

  type Handler = Ctx -> Result<Value, Thrown>
  type Compensator = Ctx -> Result<(), string>

  datatype Entry = Entry(name: string, handler: Handler, compensate: Option<Compensator>)

  datatype Step =
    | Sequential(name: string, handler: Handler, compensate: Option<Compensator>)
    | Parallel(name: string, entries: seq<Entry>)
    | Route(name: string, resolver: Ctx -> Result<string, Thrown>, branches: seq<(string, Handler)>)
    | Loop(name: string, body: (Value, Ctx, nat) -> Result<Value, Thrown>, maxIterations: int,
        until: Option<(Value, nat) -> bool>, feedback: Option<Value -> Value>, mapInput: Option<Ctx -> Value>)

  /** One compensator call: whose it was, what it saw, and what it threw. */
  datatype Call = Call(step: string, ctx: Ctx, threw: Option<string>)

  /** How a run ends: with its results, or with the step that failed, its error, the results so
      far, and the rollback's calls. */
  datatype Ending =
    | Finished(results: map<string, Value>)
    | Aborted(step: nat, error: WorkflowError, results: map<string, Value>, calls: seq<Call>)

  /** What `run` throws. */
  datatype RunError =
    | StepFailed(error: WorkflowError)
    | CompensationFailed(original: WorkflowError, failures: seq<(string, string)>)

  function Wrap(name: string, thrown: Thrown): WorkflowError {
    match thrown
    case Plain(message) => WorkflowError(name, message)
    case Nested(error) => error
  }

  function ErrorMessage(thrown: Thrown): string {
    match thrown
    case Plain(message) => message
    case Nested(error) => "Workflow step \"" + error.step + "\" failed: " + error.cause
  }

  // ----- One step ------------------------------------------------------------------------------

  /** All entries run against the same context; results are stored only if all succeed. */
  function AllEntries(entries: seq<Entry>, ctx: Ctx): Result<seq<Value>, Thrown> {
    if entries == [] then Ok([])
    else
      var last := |entries| - 1;
      match AllEntries(entries[..last], ctx)
      case Err(thrown) => Err(thrown)
      case Ok(values) =>
        match entries[last].handler(ctx)
        case Err(thrown) => Err(thrown)
        case Ok(value) => Ok(values + [value])
  }

  function StoreAll(results: map<string, Value>, entries: seq<Entry>, values: seq<Value>): map<string, Value>
    requires |entries| == |values|
  {
    if entries == [] then results
    else
      var last := |entries| - 1;
      StoreAll(results, entries[..last], values[..last])[entries[last].name := values[last]]
  }

  lemma {:induction false} AllEntriesCount(entries: seq<Entry>, ctx: Ctx)
    ensures AllEntries(entries, ctx).Ok? ==> |AllEntries(entries, ctx).value| == |entries|
  {
    if entries != [] {
      AllEntriesCount(entries[..|entries| - 1], ctx);
    }
  }

  /** Loop iterations from number `i` on: the last result. */
  function Iterate(step: Step, ctx: Ctx, input: Value, i: nat): Result<Value, Thrown>
    requires step.Loop? && i < step.maxIterations
    decreases step.maxIterations - i
  {
    match step.body(input, ctx, i)
    case Err(thrown) => Err(thrown)
    case Ok(value) =>
      if step.until.Some? && step.until.value(value, i + 1) then Ok(value)
      else if i + 1 >= step.maxIterations then Ok(value)
      else Iterate(step, ctx, if step.feedback.Some? then step.feedback.value(value) else input, i + 1)
  }

  function LoopSeed(step: Step, ctx: Ctx): Value
    requires step.Loop?
  {
    if step.mapInput.Some? then step.mapInput.value(ctx) else ctx.input
  }

  /** The results after one step, or what it threw. */
  function Execute(step: Step, ctx: Ctx): Result<map<string, Value>, Thrown> {
    match step
    case Sequential(name, handler, _) =>
      (match handler(ctx)
       case Err(thrown) => Err(thrown)
       case Ok(value) => Ok(ctx.results[name := value]))
    case Parallel(_, entries) =>
      AllEntriesCount(entries, ctx);
      (match AllEntries(entries, ctx)
       case Err(thrown) => Err(thrown)
       case Ok(values) => Ok(StoreAll(ctx.results, entries, values)))
    case Route(name, resolver, branches) =>
      (match resolver(ctx)
       case Err(thrown) => Err(thrown)
       case Ok(key) =>
         match FindBranch(branches, key)
         case None => Ok(ctx.results)
         case Some(handler) =>
           match handler(ctx)
           case Err(thrown) => Err(thrown)
           case Ok(value) => Ok(ctx.results[name := value]))
    case Loop(name, _, maxIterations, _, _, _) =>
      if maxIterations <= 0 then Ok(ctx.results)
      else
        match Iterate(step, ctx, LoopSeed(step, ctx), 0)
        case Err(thrown) => Err(thrown)
        case Ok(value) => Ok(ctx.results[name := value])
  }

  // ----- Rollback ------------------------------------------------------------------------------

  function EntryCompensators(entries: seq<Entry>): seq<(string, Compensator)> {
    if entries == [] then []
    else
      var last := entries[|entries| - 1];
      EntryCompensators(entries[..|entries| - 1])
      + (if last.compensate.Some? then [(last.name, last.compensate.value)] else [])
  }

  /** A step's compensators: its own, or for a parallel step its entries', in declaration order. */
  function CompensatorsFor(step: Step): seq<(string, Compensator)> {
    match step
    case Sequential(name, _, compensate) => if compensate.Some? then [(name, compensate.value)] else []
    case Parallel(_, entries) => EntryCompensators(entries)
    case Route(_, _, _) => []
    case Loop(_, _, _, _, _, _) => []
  }

  function CallOne(compensator: (string, Compensator), ctx: Ctx): Call {
    Call(compensator.0, ctx,
      match compensator.1(ctx) case Ok(_) => None case Err(error) => Some(error))
  }

  function CallAll(compensators: seq<(string, Compensator)>, ctx: Ctx): seq<Call> {
    seq(|compensators|, i requires 0 <= i < |compensators| => CallOne(compensators[i], ctx))
  }

  /** The calls that roll back completed steps: last step first, whatever throws. */
  function Rollback(completed: seq<Step>, ctx: Ctx): seq<Call> {
    if completed == [] then []
    else CallAll(CompensatorsFor(completed[|completed| - 1]), ctx) + Rollback(completed[..|completed| - 1], ctx)
  }

  function Failures(calls: seq<Call>): seq<(string, string)> {
    if calls == [] then []
    else
      var last := calls[|calls| - 1];
      Failures(calls[..|calls| - 1]) + (if last.threw.Some? then [(last.step, last.threw.value)] else [])
  }

  // ----- The whole run -------------------------------------------------------------------------

  /** Running the steps from number `i` on. */
  function RunFrom(steps: seq<Step>, i: nat, ctx: Ctx): Ending
    requires i <= |steps|
    decreases |steps| - i
  {
    if i == |steps| then Finished(ctx.results)
    else
      match Execute(steps[i], ctx)
      case Ok(results) => RunFrom(steps, i + 1, ctx.(results := results))
      case Err(thrown) => Aborted(i, Wrap(steps[i].name, thrown), ctx.results, Rollback(steps[..i], ctx))
  }

  function Answer(ending: Ending): Result<map<string, Value>, RunError> {
    match ending
    case Finished(results) => Ok(results)
    case Aborted(_, error, _, calls) =>
      if Failures(calls) == [] then Err(StepFailed(error)) else Err(CompensationFailed(error, Failures(calls)))
  }

  function CallsOf(ending: Ending): seq<Call> {
    match ending
    case Finished(_) => []
    case Aborted(_, _, _, calls) => calls
  }

  /** The builder and executor. `calls` records the compensator calls it makes. */
  class Runner {
    var steps: seq<Step>
    var calls: seq<Call>

    constructor ()
      ensures steps == [] && calls == []
    {
      steps, calls := [], [];
    }

    method Append(step: Step)
      modifies this`steps
      ensures steps == old(steps) + [step]
    {
      steps := steps + [step];
    }

    method Run(input: Value) returns (answer: Result<map<string, Value>, RunError>)
      modifies this`calls
      ensures var ending := RunFrom(steps, 0, Ctx(input, map[]));
        answer == Answer(ending) && calls == old(calls) + CallsOf(ending)
    {
      var results: map<string, Value> := map[];
      var completed: seq<Step> := [];
      var i := 0;
      while i < |steps|
        invariant 0 <= i <= |steps| && completed == steps[..i] && calls == old(calls)
        invariant RunFrom(steps, 0, Ctx(input, map[])) == RunFrom(steps, i, Ctx(input, results))
      {
        var step := steps[i];
        var executed := ExecuteStep(step, Ctx(input, results));
        match executed {
          case Ok(after) =>
            results := after;
            completed := completed + [step];
          case Err(thrown) =>
            var failures := Compensate(completed, Ctx(input, results));
            var error := Wrap(step.name, thrown);
            return if failures == [] then Err(StepFailed(error)) else Err(CompensationFailed(error, failures));
        }
        i := i + 1;
      }
      return Ok(results);
    }

    method ExecuteStep(step: Step, ctx: Ctx) returns (r: Result<map<string, Value>, Thrown>)
      ensures r == Execute(step, ctx)
    {
      match step {
        case Sequential(name, handler, _) =>
          match handler(ctx) {
            case Err(thrown) => return Err(thrown);
            case Ok(value) => return Ok(ctx.results[name := value]);
          }
        case Parallel(_, entries) =>
          r := RunEntries(entries, ctx);
        case Route(name, resolver, branches) =>
          var key := resolver(ctx);
          if key.Err? {
            return Err(key.error);
          }
          var branch := FindBranch(branches, key.value);
          if branch.None? {
            return Ok(ctx.results);
          }
          match branch.value(ctx) {
            case Err(thrown) => return Err(thrown);
            case Ok(value) => return Ok(ctx.results[name := value]);
          }
        case Loop(_, _, _, _, _, _) =>
          r := RunLoop(step, ctx);
      }
    }

    method RunEntries(entries: seq<Entry>, ctx: Ctx) returns (r: Result<map<string, Value>, Thrown>)
      ensures r == Execute(Parallel("", entries), ctx)
    {
      var values: seq<Value> := [];
      var i := 0;
      while i < |entries|
        invariant 0 <= i <= |entries| && |values| == i
        invariant AllEntries(entries[..i], ctx) == Ok(values)
      {
        assert entries[..i + 1][..i] == entries[..i];
        match entries[i].handler(ctx) {
          case Err(thrown) =>
            FirstRejection(entries, i + 1, ctx);
            return Err(thrown);
          case Ok(value) => values := values + [value];
        }
        i := i + 1;
      }
      assert entries[..i] == entries;
      var results := ctx.results;
      i := 0;
      while i < |entries|
        invariant 0 <= i <= |entries|
        invariant results == StoreAll(ctx.results, entries[..i], values[..i])
      {
        assert entries[..i + 1][..i] == entries[..i] && values[..i + 1][..i] == values[..i];
        results := results[entries[i].name := values[i]];
        i := i + 1;
      }
      assert entries[..i] == entries && values[..i] == values;
      return Ok(results);
    }

    static lemma {:induction false} FirstRejection(entries: seq<Entry>, n: nat, ctx: Ctx)
      requires n <= |entries| && AllEntries(entries[..n], ctx).Err?
      ensures AllEntries(entries, ctx) == AllEntries(entries[..n], ctx)
      decreases |entries| - n
    {
      if n == |entries| {
        assert entries[..n] == entries;
      } else {
        assert entries[..n + 1][..n] == entries[..n];
        FirstRejection(entries, n + 1, ctx);
      }
    }

    method RunLoop(step: Step, ctx: Ctx) returns (r: Result<map<string, Value>, Thrown>)
      requires step.Loop?
      ensures r == Execute(step, ctx)
    {
      if step.maxIterations <= 0 {
        return Ok(ctx.results);
      }
      var iterInput := LoopSeed(step, ctx);
      var lastResult := Null;
      var i := 0;
      while i < step.maxIterations
        invariant 0 <= i <= step.maxIterations
        invariant i < step.maxIterations ==>
          Iterate(step, ctx, LoopSeed(step, ctx), 0) == Iterate(step, ctx, iterInput, i)
        invariant i == step.maxIterations ==> Iterate(step, ctx, LoopSeed(step, ctx), 0) == Ok(lastResult)
      {
        match step.body(iterInput, ctx, i) {
          case Err(thrown) => return Err(thrown);
          case Ok(value) => lastResult := value;
        }
        if step.until.Some? && step.until.value(lastResult, i + 1) {
          return Ok(ctx.results[step.name := lastResult]);
        }
        if step.feedback.Some? {
          iterInput := step.feedback.value(lastResult);
        }
        i := i + 1;
      }
      return Ok(ctx.results[step.name := lastResult]);
    }

    method Compensate(completed: seq<Step>, ctx: Ctx) returns (failures: seq<(string, string)>)
      modifies this`calls
      ensures calls == old(calls) + Rollback(completed, ctx)
      ensures failures == Failures(Rollback(completed, ctx))
    {
      failures := [];
      ghost var made: seq<Call> := [];
      var i := |completed| - 1;
      assert completed[..i + 1] == completed;
      NilRight(calls);
      while i >= 0
        invariant -1 <= i < |completed|
        invariant calls == old(calls) + made && failures == Failures(made)
        invariant made + Rollback(completed[..i + 1], ctx) == Rollback(completed, ctx)
      {
        var step := completed[i];
        assert completed[..i + 1][..i] == completed[..i];
        Assoc(made, CallAll(CompensatorsFor(step), ctx), Rollback(completed[..i], ctx));
        Assoc(old(calls), made, CallAll(CompensatorsFor(step), ctx));
        FailuresAppend(made, CallAll(CompensatorsFor(step), ctx));
        var more := CompensateStep(step, ctx);
        failures := failures + more;
        made := made + CallAll(CompensatorsFor(step), ctx);
        i := i - 1;
      }
      NilRight(made);
    }

    method CompensateStep(step: Step, ctx: Ctx) returns (failures: seq<(string, string)>)
      modifies this`calls
      ensures calls == old(calls) + CallAll(CompensatorsFor(step), ctx)
      ensures failures == Failures(CallAll(CompensatorsFor(step), ctx))
    {
      failures := [];
      var compensators := CompensatorsFor(step);
      ghost var all := CallAll(compensators, ctx);
      var j := 0;
      while j < |compensators|
        invariant 0 <= j <= |compensators|
        invariant calls == old(calls) + all[..j] && failures == Failures(all[..j])
      {
        var answer := compensators[j].1(ctx);
        calls := calls + [Call(compensators[j].0, ctx, if answer.Err? then Some(answer.error) else None)];
        if answer.Err? {
          failures := failures + [(compensators[j].0, answer.error)];
        }
        assert all[..j + 1] == all[..j] + [all[j]];
        j := j + 1;
      }
      assert all[..j] == all;
    }
  }

  lemma {:induction false} FailuresAppend(a: seq<Call>, b: seq<Call>)
    ensures Failures(a + b) == Failures(a) + Failures(b)
  {
    if b == [] {
      NilRight(a);
    } else {
      assert (a + b)[..|a + b| - 1] == a + b[..|b| - 1];
      FailuresAppend(a, b[..|b| - 1]);
      var last := b[|b| - 1];
      Assoc(Failures(a), Failures(b[..|b| - 1]), if last.threw.Some? then [(last.step, last.threw.value)] else []);
    }
  }

  // ----- What a run promises ---------------------------------------------------------------------

  /** The context before step `i` if all earlier steps succeed. */
  function Before(steps: seq<Step>, i: nat, ctx: Ctx): Option<Ctx>
    requires i <= |steps|
  {
    if i == 0 then Some(ctx)
    else
      match Before(steps, i - 1, ctx)
      case None => None
      case Some(reached) =>
        match Execute(steps[i - 1], reached)
        case Ok(results) => Some(reached.(results := results))
        case Err(_) => None
  }

  /** A run stops at the first step that throws, with every earlier step done, and rolls back
      exactly the steps before it; it finishes exactly when no step throws. */
  lemma {:induction false} RunStopsAtFirstThrow(steps: seq<Step>, i: nat, start: Ctx, ctx: Ctx)
    requires i <= |steps| && Before(steps, i, start) == Some(ctx)
    ensures match RunFrom(steps, i, ctx)
      case Finished(results) => Before(steps, |steps|, start) == Some(start.(results := results))
      case Aborted(k, error, results, calls) =>
        && i <= k < |steps|
        && Before(steps, k, start) == Some(start.(results := results))
        && Execute(steps[k], start.(results := results)).Err?
        && error == Wrap(steps[k].name, Execute(steps[k], start.(results := results)).error)
        && calls == Rollback(steps[..k], start.(results := results))
    decreases |steps| - i
  {
    BeforeKeepsInput(steps, i, start);
    if i < |steps| {
      match Execute(steps[i], ctx) {
        case Ok(results) => RunStopsAtFirstThrow(steps, i + 1, start, ctx.(results := results));
        case Err(_) =>
      }
    }
  }

  lemma {:induction false} BeforeKeepsInput(steps: seq<Step>, i: nat, start: Ctx)
    requires i <= |steps| && Before(steps, i, start).Some?
    ensures Before(steps, i, start).value.input == start.input
  {
    if i > 0 {
      BeforeKeepsInput(steps, i - 1, start);
    }
  }
}
