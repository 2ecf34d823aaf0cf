/** What an in-process run stores, undoes and throws, said of the declared steps alone. */
module WorkflowLaws {
  import opened Prelude
  import opened Workflow

  // ----- What one step stores -----------------------------------------------------------------------

  predicate SequentialStores(step: Step, ctx: Ctx, after: Result<map<string, Value>, Thrown>)
    requires step.Sequential?
  {
    match step.handler(ctx)
    case Err(thrown) => after == Err(thrown)
    case Ok(value) => after == Ok(ctx.results[step.name := value])
  }

  /** Entry `i` is the last of its name. */
  predicate LastNamed(entries: seq<Entry>, i: nat) {
    i < |entries| && forall j :: i < j < |entries| ==> entries[j].name != entries[i].name
  }

  /** The first entry that throws, in declaration order, or every entry's value under its name. */
  ghost predicate ParallelStores(entries: seq<Entry>, ctx: Ctx, after: Result<map<string, Value>, Thrown>) {
    match after
    case Err(thrown) =>
      exists i :: 0 <= i < |entries| && entries[i].handler(ctx) == Err(thrown)
        && forall j :: 0 <= j < i ==> entries[j].handler(ctx).Ok?
    case Ok(results) =>
      && (forall i :: 0 <= i < |entries| ==> entries[i].handler(ctx).Ok?)
      && results.Keys == ctx.results.Keys + (set i | 0 <= i < |entries| :: entries[i].name)
      && (forall i: nat :: LastNamed(entries, i) ==> Ok(results[entries[i].name]) == entries[i].handler(ctx))
      && (forall name :: name in ctx.results && (forall i :: 0 <= i < |entries| ==> entries[i].name != name) ==>
            results[name] == ctx.results[name])
  }

  /** The branch of the resolver's key; an unknown key stores nothing. */
  ghost predicate RouteStores(step: Step, ctx: Ctx, after: Result<map<string, Value>, Thrown>)
    requires step.Route?
  {
    match step.resolver(ctx)
    case Err(thrown) => after == Err(thrown)
    case Ok(key) =>
      && (NoSuchBranch(step.branches, key) ==> after == Ok(ctx.results))
      && (forall i: nat :: LeadsTo(step.branches, key, i) ==>
            match step.branches[i].1(ctx)
            case Err(thrown) => after == Err(thrown)
            case Ok(value) => after == Ok(ctx.results[step.name := value]))
  }

  /** The iterations of a loop so far: what each was given and gave. */
  predicate Iterations(step: Step, ctx: Ctx, inputs: seq<Value>, values: seq<Value>)
    requires step.Loop?
  {
    && |inputs| == |values| + 1 && |values| <= step.maxIterations
    && inputs[0] == (if step.mapInput.Some? then step.mapInput.value(ctx) else ctx.input)
    && (forall n :: 0 <= n < |values| ==>
          && step.body(inputs[n], ctx, n) == Ok(values[n])
          && inputs[n + 1] == (if step.feedback.Some? then step.feedback.value(values[n]) else inputs[n]))
    && (forall n :: 0 <= n < |values| - 1 ==> !Stops(step, values[n], n))
  }

  predicate Stops(step: Step, value: Value, n: nat)
    requires step.Loop?
  {
    step.until.Some? && step.until.value(value, n + 1)
  }

  /** It ends with the iteration that throws, with the one that stops it, or at the bound. */
  predicate LoopEnds(step: Step, ctx: Ctx, inputs: seq<Value>, values: seq<Value>,
      after: Result<map<string, Value>, Thrown>)
    requires step.Loop? && Iterations(step, ctx, inputs, values)
  {
    var n := |values|;
    match after
    case Err(thrown) =>
      && n < step.maxIterations && step.body(inputs[n], ctx, n) == Err(thrown)
      && (n > 0 ==> !Stops(step, values[n - 1], n - 1))
    case Ok(results) =>
      && n > 0 && (n == step.maxIterations || Stops(step, values[n - 1], n - 1))
      && results == ctx.results[step.name := values[n - 1]]
  }

  lemma {:induction false} EntriesAre(entries: seq<Entry>, ctx: Ctx)
    ensures match AllEntries(entries, ctx)
      case Err(thrown) =>
        exists i :: 0 <= i < |entries| && entries[i].handler(ctx) == Err(thrown)
          && forall j :: 0 <= j < i ==> entries[j].handler(ctx).Ok?
      case Ok(values) =>
        |values| == |entries| && forall i :: 0 <= i < |entries| ==> entries[i].handler(ctx) == Ok(values[i])
  {
    if entries != [] {
      var init := entries[..|entries| - 1];
      EntriesAre(init, ctx);
      if AllEntries(init, ctx).Err? {
        var i :| 0 <= i < |init| && init[i].handler(ctx) == Err(AllEntries(init, ctx).error)
          && forall j :: 0 <= j < i ==> init[j].handler(ctx).Ok?;
        assert entries[i] == init[i] && forall j :: 0 <= j < i ==> entries[j] == init[j];
      } else {
        assert forall j :: 0 <= j < |init| ==> entries[j] == init[j];
      }
    }
  }

  lemma {:induction false} StoredKeys(results: map<string, Value>, entries: seq<Entry>, values: seq<Value>)
    requires |entries| == |values|
    ensures StoreAll(results, entries, values).Keys == results.Keys + (set i | 0 <= i < |entries| :: entries[i].name)
  {
    if entries != [] {
      var last := |entries| - 1;
      var init := entries[..last];
      StoredKeys(results, init, values[..last]);
      assert forall i :: 0 <= i < last ==> init[i] == entries[i];
      var before := set i | 0 <= i < last :: init[i].name;
      assert (set i | 0 <= i < |entries| :: entries[i].name) == before + {entries[last].name};
    }
  }

  lemma {:induction false} StoredLast(results: map<string, Value>, entries: seq<Entry>, values: seq<Value>, i: nat)
    requires |entries| == |values| && LastNamed(entries, i)
    ensures var after := StoreAll(results, entries, values);
      entries[i].name in after && after[entries[i].name] == values[i]
  {
    var last := |entries| - 1;
    if i < last {
      assert LastNamed(entries[..last], i);
      StoredLast(results, entries[..last], values[..last], i);
    }
  }

  lemma {:induction false} StoredOther(results: map<string, Value>, entries: seq<Entry>, values: seq<Value>,
      name: string)
    requires |entries| == |values| && name in results && forall i :: 0 <= i < |entries| ==> entries[i].name != name
    ensures var after := StoreAll(results, entries, values);
      name in after && after[name] == results[name]
  {
    if entries != [] {
      StoredOther(results, entries[..|entries| - 1], values[..|entries| - 1], name);
    }
  }

  lemma StoredAre(results: map<string, Value>, entries: seq<Entry>, values: seq<Value>)
    requires |entries| == |values|
    ensures var after := StoreAll(results, entries, values);
      && after.Keys == results.Keys + (set i | 0 <= i < |entries| :: entries[i].name)
      && (forall i: nat :: LastNamed(entries, i) ==> after[entries[i].name] == values[i])
      && (forall name :: name in results && (forall i :: 0 <= i < |entries| ==> entries[i].name != name) ==>
            after[name] == results[name])
  {
    StoredKeys(results, entries, values);
    forall i: nat | LastNamed(entries, i)
      ensures StoreAll(results, entries, values)[entries[i].name] == values[i]
    {
      StoredLast(results, entries, values, i);
    }
    forall name | name in results && (forall i :: 0 <= i < |entries| ==> entries[i].name != name)
      ensures StoreAll(results, entries, values)[name] == results[name]
    {
      StoredOther(results, entries, values, name);
    }
  }

  lemma {:induction false} IteratesAre(step: Step, ctx: Ctx, inputs: seq<Value>, values: seq<Value>)
      returns (allInputs: seq<Value>, allValues: seq<Value>)
    requires step.Loop? && Iterations(step, ctx, inputs, values) && |values| < step.maxIterations
    requires |values| > 0 ==> !Stops(step, values[|values| - 1], |values| - 1)
    ensures Iterations(step, ctx, allInputs, allValues)
    ensures LoopEnds(step, ctx, allInputs, allValues,
      match Iterate(step, ctx, inputs[|values|], |values|)
      case Err(thrown) => Err(thrown)
      case Ok(value) => Ok(ctx.results[step.name := value]))
    decreases step.maxIterations - |values|
  {
    var n := |values|;
    match step.body(inputs[n], ctx, n) {
      case Err(_) => return inputs, values;
      case Ok(value) =>
        var next := if step.feedback.Some? then step.feedback.value(value) else inputs[n];
        allInputs, allValues := inputs + [next], values + [value];
        if !Stops(step, value, n) && n + 1 < step.maxIterations {
          allInputs, allValues := IteratesAre(step, ctx, allInputs, allValues);
        }
    }
  }

  /** What a step of each kind stores, or throws. */
  lemma StepLaw(step: Step, ctx: Ctx)
    ensures step.Sequential? ==> SequentialStores(step, ctx, Execute(step, ctx))
    ensures step.Parallel? ==> ParallelStores(step.entries, ctx, Execute(step, ctx))
    ensures step.Route? ==> RouteStores(step, ctx, Execute(step, ctx))
    ensures step.Loop? && step.maxIterations <= 0 ==> Execute(step, ctx) == Ok(ctx.results)
  {
    match step {
      case Sequential(_, _, _) =>
      case Parallel(_, entries) =>
        EntriesAre(entries, ctx);
        AllEntriesCount(entries, ctx);
        if AllEntries(entries, ctx).Ok? {
          StoredAre(ctx.results, entries, AllEntries(entries, ctx).value);
        }
      case Route(_, resolver, branches) =>
        if resolver(ctx).Ok? {
          BranchFound(branches, resolver(ctx).value);
        }
      case Loop(_, _, _, _, _, _) =>
    }
  }

  /** A loop that may run runs its iterations one after the other, each fed by the one before. */
  lemma LoopLaw(step: Step, ctx: Ctx) returns (inputs: seq<Value>, values: seq<Value>)
    requires step.Loop? && step.maxIterations > 0
    ensures Iterations(step, ctx, inputs, values) && LoopEnds(step, ctx, inputs, values, Execute(step, ctx))
  {
    var seed := if step.mapInput.Some? then step.mapInput.value(ctx) else ctx.input;
    inputs, values := IteratesAre(step, ctx, [seed], []);
  }

  // ----- Which compensators a run calls ---------------------------------------------------------------

  /** Where a compensator is declared: a step, and for a parallel step one of its entries. */
  datatype Site = Site(step: nat, entry: nat)

  predicate Declared(steps: seq<Step>, site: Site) {
    && site.step < |steps|
    && match steps[site.step]
       case Sequential(_, _, compensate) => site.entry == 0 && compensate.Some?
       case Parallel(_, entries) => site.entry < |entries| && entries[site.entry].compensate.Some?
       case _ => false
  }

  /** The call of the compensator declared there, with what it throws. */
  predicate CalledAt(steps: seq<Step>, site: Site, ctx: Ctx, call: Call)
    requires Declared(steps, site)
  {
    var (name, compensate) := match steps[site.step]
      case Sequential(name, _, compensate) => (name, compensate.value)
      case Parallel(_, entries) => (entries[site.entry].name, entries[site.entry].compensate.value);
    && call.step == name && call.ctx == ctx
    && call.threw == match compensate(ctx) case Ok(_) => None case Err(error) => Some(error)
  }

  /** Later steps first, and within a step in declaration order. */
  predicate Sooner(a: Site, b: Site) {
    a.step > b.step || (a.step == b.step && a.entry < b.entry)
  }

  /** The calls are those of the sites, one each, in rollback order, all of the given steps. */
  predicate CallsAt(steps: seq<Step>, sites: seq<Site>, ctx: Ctx, calls: seq<Call>, from: nat, to: nat) {
    && |calls| == |sites|
    && (forall n :: 0 <= n < |sites| ==>
          from <= sites[n].step < to && Declared(steps, sites[n]) && CalledAt(steps, sites[n], ctx, calls[n]))
    && (forall m, n :: 0 <= m < n < |sites| ==> Sooner(sites[m], sites[n]))
  }

  /** No compensator of the given steps is left out. */
  ghost predicate AllSites(steps: seq<Step>, sites: seq<Site>, from: nat, to: nat) {
    forall site :: Declared(steps, site) && from <= site.step < to ==> site in sites
  }

  lemma {:induction false} EntrySites(steps: seq<Step>, i: nat, count: nat, ctx: Ctx) returns (sites: seq<Site>)
    requires i < |steps| && steps[i].Parallel? && count <= |steps[i].entries|
    ensures CallsAt(steps, sites, ctx, CallAll(EntryCompensators(steps[i].entries[..count]), ctx), i, i + 1)
    ensures forall n :: 0 <= n < |sites| ==> sites[n].entry < count
    ensures forall j :: 0 <= j < count && steps[i].entries[j].compensate.Some? ==> Site(i, j) in sites
  {
    if count == 0 {
      sites := [];
    } else {
      var entries := steps[i].entries;
      sites := EntrySites(steps, i, count - 1, ctx);
      assert entries[..count][..count - 1] == entries[..count - 1];
      if entries[count - 1].compensate.Some? {
        sites := sites + [Site(i, count - 1)];
      }
    }
  }

  lemma StepSites(steps: seq<Step>, i: nat, ctx: Ctx) returns (sites: seq<Site>)
    requires i < |steps|
    ensures CallsAt(steps, sites, ctx, CallAll(CompensatorsFor(steps[i]), ctx), i, i + 1)
    ensures AllSites(steps, sites, i, i + 1)
  {
    match steps[i] {
      case Sequential(_, _, compensate) => sites := if compensate.Some? then [Site(i, 0)] else [];
      case Parallel(_, entries) =>
        sites := EntrySites(steps, i, |entries|, ctx);
        assert entries[..|entries|] == entries;
      case Route(_, _, _) => sites := [];
      case Loop(_, _, _, _, _, _) => sites := [];
    }
  }

  lemma JoinCalls(steps: seq<Step>, a: seq<Site>, x: seq<Call>, b: seq<Site>, y: seq<Call>, ctx: Ctx, i: nat)
    requires CallsAt(steps, a, ctx, x, i, i + 1) && CallsAt(steps, b, ctx, y, 0, i)
    requires AllSites(steps, a, i, i + 1) && AllSites(steps, b, 0, i)
    ensures CallsAt(steps, a + b, ctx, x + y, 0, i + 1) && AllSites(steps, a + b, 0, i + 1)
  {
    var sites, calls := a + b, x + y;
    forall n | 0 <= n < |sites|
      ensures sites[n].step <= i && Declared(steps, sites[n]) && CalledAt(steps, sites[n], ctx, calls[n])
    {
      assert n < |a| ==> CalledAt(steps, a[n], ctx, x[n]);
      assert n >= |a| ==> CalledAt(steps, b[n - |a|], ctx, y[n - |a|]);
    }
  }

  lemma {:induction false} RollbackSites(steps: seq<Step>, k: nat, ctx: Ctx) returns (sites: seq<Site>)
    requires k <= |steps|
    ensures CallsAt(steps, sites, ctx, Rollback(steps[..k], ctx), 0, k) && AllSites(steps, sites, 0, k)
  {
    if k == 0 {
      sites := [];
    } else {
      var last := StepSites(steps, k - 1, ctx);
      var rest := RollbackSites(steps, k - 1, ctx);
      assert steps[..k][..k - 1] == steps[..k - 1];
      JoinCalls(
        steps, last, CallAll(CompensatorsFor(steps[k - 1]), ctx), rest, Rollback(steps[..k - 1], ctx), ctx, k - 1);
      sites := last + rest;
    }
  }

  /** A run that aborts at step `k` calls, with its final results, exactly the compensators declared
      by the steps before `k`: a sequential step's own, and those of a parallel step's entries;
      later steps first, entries in declaration order, each once, whichever of them throw. */
  lemma AbortUndoes(steps: seq<Step>, input: Value) returns (sites: seq<Site>)
    requires RunFrom(steps, 0, Ctx(input, map[])).Aborted?
    ensures var ending := RunFrom(steps, 0, Ctx(input, map[]));
      && ending.step < |steps|
      && CallsAt(steps, sites, Ctx(input, ending.results), ending.calls, 0, ending.step)
      && AllSites(steps, sites, 0, ending.step)
  {
    var start := Ctx(input, map[]);
    RunStopsAtFirstThrow(steps, 0, start, start);
    var ending := RunFrom(steps, 0, start);
    sites := RollbackSites(steps, ending.step, Ctx(input, ending.results));
  }

  // ----- What a run throws ------------------------------------------------------------------------------

  predicate FailureAt(calls: seq<Call>, place: nat, failure: (string, string)) {
    place < |calls| && calls[place].threw == Some(failure.1) && calls[place].step == failure.0
  }

  /** The failures are the calls that threw, in order. */
  predicate FailuresOf(calls: seq<Call>, places: seq<nat>, failures: seq<(string, string)>) {
    && |failures| == |places|
    && (forall n :: 0 <= n < |places| ==> FailureAt(calls, places[n], failures[n]))
    && (forall m, n :: 0 <= m < n < |places| ==> places[m] < places[n])
    && (forall p :: 0 <= p < |calls| && calls[p].threw.Some? ==> p in places)
  }

  lemma QuietCall(init: seq<Call>, call: Call, places: seq<nat>, failures: seq<(string, string)>)
    requires FailuresOf(init, places, failures) && call.threw.None?
    ensures FailuresOf(init + [call], places, failures)
  {
    forall n | 0 <= n < |places|
      ensures FailureAt(init + [call], places[n], failures[n])
    {
      assert FailureAt(init, places[n], failures[n]);
    }
  }

  lemma FailingCall(init: seq<Call>, call: Call, places: seq<nat>, failures: seq<(string, string)>)
    requires FailuresOf(init, places, failures) && call.threw.Some?
    ensures FailuresOf(init + [call], places + [|init|], failures + [(call.step, call.threw.value)])
  {
    forall n | 0 <= n < |places|
      ensures FailureAt(init + [call], places[n], failures[n]) && places[n] < |init|
    {
      assert FailureAt(init, places[n], failures[n]);
    }
    forall p | 0 <= p < |init + [call]| && (init + [call])[p].threw.Some?
      ensures p in places + [|init|]
    {
      assert p < |init| ==> init[p].threw.Some?;
    }
  }

  lemma {:induction false} FailuresAre(calls: seq<Call>) returns (places: seq<nat>)
    ensures FailuresOf(calls, places, Failures(calls))
  {
    if calls == [] {
      places := [];
    } else {
      var init, call := calls[..|calls| - 1], calls[|calls| - 1];
      places := FailuresAre(init);
      assert calls == init + [call];
      if call.threw.Some? {
        FailingCall(init, call, places, Failures(init));
        places := places + [|init|];
      } else {
        QuietCall(init, call, places, Failures(init));
        NilRight(Failures(init));
      }
    }
  }

  /** The error of a step that threw: a workflow error as it is, any other under the step's name. */
  predicate Blames(step: Step, thrown: Thrown, error: WorkflowError) {
    match thrown
    case Plain(message) => error == WorkflowError(step.name, message)
    case Nested(inner) => error == inner
  }

  /** The error of the run: that of its step and, if compensators threw, also all they threw. */
  predicate Reports(thrown: RunError, error: WorkflowError, calls: seq<Call>, places: seq<nat>) {
    match thrown
    case StepFailed(original) => original == error && FailuresOf(calls, [], [])
    case CompensationFailed(original, failures) =>
      original == error && failures != [] && FailuresOf(calls, places, failures)
  }

  /** A run answers its results, or throws the error of the step that threw. */
  lemma AnswerLaw(steps: seq<Step>, input: Value) returns (places: seq<nat>)
    ensures var ending := RunFrom(steps, 0, Ctx(input, map[]));
      if ending.Finished? then Answer(ending) == Ok(ending.results)
      else
        && ending.step < |steps| && Execute(steps[ending.step], Ctx(input, ending.results)).Err?
        && Blames(steps[ending.step], Execute(steps[ending.step], Ctx(input, ending.results)).error, ending.error)
        && Answer(ending).Err? && Reports(Answer(ending).error, ending.error, ending.calls, places)
  {
    var start := Ctx(input, map[]);
    RunStopsAtFirstThrow(steps, 0, start, start);
    var ending := RunFrom(steps, 0, start);
    places := [];
    if ending.Aborted? {
      places := FailuresAre(ending.calls);
      if Failures(ending.calls) == [] {
        assert places == [];
      }
    }
  }
}
