/** On step-only workflows without retries the durable engine and `Workflow.run` agree. */
module SagaRefinement {
  import opened Prelude
  import D = DurableTypes
  import Spec = DurableSpec
  import J = DurableJournal
  import R = DurableReachable
  import B = DurableBigStep
  import S = DurableSaga
  import W = Workflow

  /** The same workflow declared to both engines: sequential steps with distinct names, one
      attempt each, handlers that answer alike, and compensators on the same steps. */
  ghost predicate SameStep(node: D.Node, step: W.Step) {
    && node.Step? && step.Sequential? && node.name == step.name
    && node.maxAttempts == 1
    && (forall c: D.Ctx, w: D.World :: node.handler(c, w) == Answer(step, c))
    && (node.compensate.Some? <==> step.compensate.Some?)
  }

  /** What the in-process handler says in a durable context. */
  function Answer(step: W.Step, c: D.Ctx): Result<Value, string>
    requires step.Sequential?
  {
    match step.handler(Plain(c))
    case Ok(value) => Ok(value)
    case Err(thrown) => Err(W.ErrorMessage(thrown))
  }

  function Plain(c: D.Ctx): W.Ctx {
    W.Ctx(c.input, c.results)
  }

  ghost predicate SameWorkflow(nodes: seq<D.Node>, steps: seq<W.Step>) {
    |nodes| == |steps| && forall i :: 0 <= i < |nodes| ==> SameStep(nodes[i], steps[i])
  }

  /** Both engines end the same way. */
  ghost predicate SameEnding(answer: B.Answer, ending: W.Ending) {
    match answer
    case Finished(results) => ending == W.Finished(results)
    case FailedAt(k, _, results) => ending.Aborted? && ending.step == k && ending.results == results
  }

  lemma PureSame(nodes: seq<D.Node>, steps: seq<W.Step>)
    requires SameWorkflow(nodes, steps)
    ensures B.PureSteps(nodes)
  {
    forall i | 0 <= i < |nodes|
      ensures B.PureNode(nodes[i])
    {
      assert SameStep(nodes[i], steps[i]);
    }
  }

  lemma {:induction false} SameAnswer(nodes: seq<D.Node>, steps: seq<W.Step>, input: Value, r: D.RunId,
      signals: string -> Value, i: nat, results: map<string, Value>)
    requires SameWorkflow(nodes, steps) && B.ChildFree(nodes) && i <= |nodes|
    ensures SameEnding(B.Interpret(nodes, input, r, signals, i, results), W.RunFrom(steps, i, W.Ctx(input, results)))
    ensures B.Interpret(nodes, input, r, signals, i, results).FailedAt? ==>
      var k := B.Interpret(nodes, input, r, signals, i, results).step;
      var ctx := W.Ctx(input, B.Interpret(nodes, input, r, signals, i, results).results);
      && k < |steps|
      && W.RunFrom(steps, i, W.Ctx(input, results)).calls == W.Rollback(steps[..k], ctx)
      && steps[k].Sequential? && steps[k].handler(ctx).Err?
      && B.Interpret(nodes, input, r, signals, i, results).errors == {W.ErrorMessage(steps[k].handler(ctx).error)}
      && W.RunFrom(steps, i, W.Ctx(input, results)).error == W.Wrap(steps[k].name, steps[k].handler(ctx).error)
    decreases |nodes| - i
  {
    if i < |nodes| {
      var node, step := nodes[i], steps[i];
      assert SameStep(node, step);
      var ctx := D.Ctx(input, results, r, 1);
      assert node.handler(ctx, B.HERE) == Answer(step, ctx);
      match step.handler(Plain(ctx)) {
        case Ok(value) =>
          SameAnswer(nodes, steps, input, r, signals, i + 1, results[node.name := value]);
        case Err(_) =>
      }
    }
  }

  // ----- The rollback calls ------------------------------------------------------------------------

  /** A rollback as the compensators see it: whose turn it is, with which input and results. */
  function Seen(calls: seq<W.Call>): seq<(string, W.Ctx)> {
    if calls == [] then []
    else Seen(calls[..|calls| - 1]) + [(calls[|calls| - 1].step, calls[|calls| - 1].ctx)]
  }

  function SeenByDurable(calls: seq<(string, D.Ctx)>): seq<(string, W.Ctx)> {
    if calls == [] then []
    else SeenByDurable(calls[..|calls| - 1]) + [(calls[|calls| - 1].0, Plain(calls[|calls| - 1].1))]
  }

  function WithPlain(names: seq<string>, ctx: W.Ctx): seq<(string, W.Ctx)> {
    if names == [] then [] else WithPlain(names[..|names| - 1], ctx) + [(names[|names| - 1], ctx)]
  }

  /** One step's own share of the rollback. */
  function Own(node: D.Node): seq<string> {
    if S.Compensable(node) then [node.name] else []
  }

  predicate SameUndo(node: D.Node, step: W.Step) {
    step.Sequential? && node.name == step.name && (S.Compensable(node) <==> step.compensate.Some?)
  }

  lemma OwnRollback(node: D.Node, step: W.Step, ctx: W.Ctx)
    requires SameUndo(node, step)
    ensures Seen(W.CallAll(W.CompensatorsFor(step), ctx)) == WithPlain(Own(node), ctx)
  {
  }

  lemma RollbackUnfolds(steps: seq<W.Step>, k: nat, ctx: W.Ctx)
    requires 0 < k <= |steps|
    ensures W.Rollback(steps[..k], ctx)
      == W.CallAll(W.CompensatorsFor(steps[k - 1]), ctx) + W.Rollback(steps[..k - 1], ctx)
  {
    assert steps[..k][..k - 1] == steps[..k - 1];
  }

  /** The steps to undo, last first. */
  function UndoOrder(nodes: seq<D.Node>, k: nat): seq<string>
    requires k <= |nodes|
  {
    if k == 0 then [] else Own(nodes[k - 1]) + UndoOrder(nodes, k - 1)
  }

  lemma {:induction false} UndoOrderReverses(nodes: seq<D.Node>, k: nat)
    requires k <= |nodes|
    ensures UndoOrder(nodes, k) == Reverse(S.CompensableBefore(nodes, k))
  {
    if k > 0 {
      UndoOrderReverses(nodes, k - 1);
      ReverseAppend(S.CompensableBefore(nodes, k - 1), Own(nodes[k - 1]));
      assert Reverse(Own(nodes[k - 1])) == Own(nodes[k - 1]);
    }
  }

  ghost predicate UndoneAlike(nodes: seq<D.Node>, steps: seq<W.Step>, k: nat, ctx: W.Ctx)
    requires k <= |nodes| && k <= |steps|
  {
    Seen(W.Rollback(steps[..k], ctx)) == WithPlain(UndoOrder(nodes, k), ctx)
  }

  lemma OneMoreToRollBack(nodes: seq<D.Node>, steps: seq<W.Step>, k: nat, ctx: W.Ctx)
    requires 0 < k <= |nodes| && k <= |steps| && SameUndo(nodes[k - 1], steps[k - 1])
    requires UndoneAlike(nodes, steps, k - 1, ctx)
    ensures UndoneAlike(nodes, steps, k, ctx)
  {
    OwnRollback(nodes[k - 1], steps[k - 1], ctx);
    RollbackUnfolds(steps, k, ctx);
    SeenJoin(W.CallAll(W.CompensatorsFor(steps[k - 1]), ctx), W.Rollback(steps[..k - 1], ctx),
      Own(nodes[k - 1]), UndoOrder(nodes, k - 1), ctx);
  }

  lemma {:induction false} SameRollback(nodes: seq<D.Node>, steps: seq<W.Step>, k: nat, ctx: W.Ctx)
    requires k <= |nodes| && k <= |steps| && forall i :: 0 <= i < k ==> SameUndo(nodes[i], steps[i])
    ensures UndoneAlike(nodes, steps, k, ctx)
  {
    if k == 0 {
      assert steps[..0] == [];
    } else {
      SameRollback(nodes, steps, k - 1, ctx);
      OneMoreToRollBack(nodes, steps, k, ctx);
    }
  }

  lemma SameUndos(nodes: seq<D.Node>, steps: seq<W.Step>)
    requires SameWorkflow(nodes, steps)
    ensures forall i :: 0 <= i < |nodes| ==> SameUndo(nodes[i], steps[i])
  {
    forall i | 0 <= i < |nodes|
      ensures SameUndo(nodes[i], steps[i])
    {
      assert SameStep(nodes[i], steps[i]);
    }
  }

  lemma {:induction false} SeenJoin(a: seq<W.Call>, b: seq<W.Call>, x: seq<string>, y: seq<string>, ctx: W.Ctx)
    requires Seen(a) == WithPlain(x, ctx) && Seen(b) == WithPlain(y, ctx)
    ensures Seen(a + b) == WithPlain(x + y, ctx)
  {
    SeenAppend(a, b);
    WithPlainAppend(x, y, ctx);
  }

  lemma {:induction false} SeenAppend(a: seq<W.Call>, b: seq<W.Call>)
    ensures Seen(a + b) == Seen(a) + Seen(b)
  {
    if b == [] {
      NilRight(a);
    } else {
      assert (a + b)[..|a + b| - 1] == a + b[..|b| - 1];
      SeenAppend(a, b[..|b| - 1]);
    }
  }

  lemma {:induction false} WithPlainAppend(a: seq<string>, b: seq<string>, ctx: W.Ctx)
    ensures WithPlain(a + b, ctx) == WithPlain(a, ctx) + WithPlain(b, ctx)
  {
    if b == [] {
      NilRight(a);
    } else {
      assert (a + b)[..|a + b| - 1] == a + b[..|b| - 1];
      WithPlainAppend(a, b[..|b| - 1], ctx);
    }
  }

  lemma {:induction false} DurableCallsSeen(names: seq<string>, ctx: D.Ctx)
    ensures SeenByDurable(S.WithCtx(names, ctx)) == WithPlain(names, Plain(ctx))
  {
    if names != [] {
      var all, init := S.WithCtx(names, ctx), names[..|names| - 1];
      assert all[..|all| - 1] == S.WithCtx(init, ctx);
      DurableCallsSeen(init, ctx);
    }
  }

  lemma NothingElseUndone(nodes: seq<D.Node>, run: D.Run)
    requires run.currentStep < |nodes| && nodes[run.currentStep].Step?
    ensures S.ToUndo(nodes, run) == S.CompensableBefore(nodes, run.currentStep)
  {
    NilRight(S.CompensableBefore(nodes, run.currentStep));
  }

  /** Refinement: once a durable run of such a workflow has ended, `Workflow.run` on the same
      input ends the same way. On success both have the same result map. On failure both stop
      at the same step with the same results, the durable error is the message of what that
      step threw, and both make the same compensator calls in the same order. */
  lemma EnginesAgree(reg: D.Registry, events: seq<Spec.Event>, r: D.RunId, steps: seq<W.Step>)
    requires J.RegistryOk(reg) && r in Spec.Exec(reg, events).runs
    requires Spec.Exec(reg, events).runs[r].workflow in reg
    requires SameWorkflow(reg[Spec.Exec(reg, events).runs[r].workflow].steps, steps)
    ensures var db := Spec.Exec(reg, events);
      var run := db.runs[r];
      var ending := W.RunFrom(steps, 0, W.Ctx(run.input, map[]));
      && (run.status == D.Completed ==> run.result.Some? && ending == W.Finished(run.result.value))
      && (run.status == D.Failed ==>
            && ending.Aborted? && ending.step == run.currentStep < |steps| && ending.results == run.state.results
            && steps[ending.step].Sequential?
            && steps[ending.step].handler(W.Ctx(run.input, ending.results)).Err?
            && run.error == Some(W.ErrorMessage(steps[ending.step].handler(W.Ctx(run.input, ending.results)).error))
            && SeenByDurable(S.Calls(db.log, r)) == Seen(ending.calls))
  {
    var db := Spec.Exec(reg, events);
    var run := db.runs[r];
    var nodes := reg[run.workflow].steps;
    PureSame(nodes, steps);
    var signals := B.Payloads(run);
    B.PayloadsAgree(reg, events, r);
    B.SmallStepsAreBigStep(reg, events, r, signals);
    SameAnswer(nodes, steps, run.input, r, signals, 0, map[]);
    S.SagaOrder(reg, events, r);
    if run.status == D.Failed {
      CallsSeenAlike(nodes, steps, run, r);
    }
  }

  lemma CallsSeenAlike(nodes: seq<D.Node>, steps: seq<W.Step>, run: D.Run, r: D.RunId)
    requires SameWorkflow(nodes, steps) && run.currentStep < |nodes|
    ensures SeenByDurable(S.WithCtx(Reverse(S.ToUndo(nodes, run)), D.Ctx(run.input, run.state.results, r, 1)))
      == Seen(W.Rollback(steps[..run.currentStep], W.Ctx(run.input, run.state.results)))
  {
    assert SameStep(nodes[run.currentStep], steps[run.currentStep]);
    NothingElseUndone(nodes, run);
    SameUndos(nodes, steps);
    SameRollback(nodes, steps, run.currentStep, W.Ctx(run.input, run.state.results));
    UndoOrderReverses(nodes, run.currentStep);
    DurableCallsSeen(Reverse(S.CompensableBefore(nodes, run.currentStep)), D.Ctx(run.input, run.state.results, r, 1));
  }
}
