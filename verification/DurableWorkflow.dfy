/** The durable workflow builder and the registry, which give the engine its naming guarantees. */
module DurableWorkflow {
  import opened Prelude
  import opened DurableTypes

  datatype BuildError = EmptyName | DuplicateName(name: string) | NoBranches(name: string)

  const DEFAULT_MAX_ATTEMPTS := 3
  const DEFAULT_MAX_ITERATIONS := 1000
  const DEFAULT_CHILD_POLL_SEC := 2.0
  const MAX_BACKOFF_SECONDS := 60.0

  function Pow2(n: nat): real {
    if n == 0 then 1.0 else 2.0 * Pow2(n - 1)
  }

  function DefaultBackoff(failedAttempt: nat, w: World): (delay: real)
    ensures 1.0 <= delay <= MAX_BACKOFF_SECONDS
    ensures delay == MAX_BACKOFF_SECONDS || delay == Pow2(failedAttempt)
  {
    Pow2Positive(failedAttempt);
    if Pow2(failedAttempt) < MAX_BACKOFF_SECONDS then Pow2(failedAttempt) else MAX_BACKOFF_SECONDS
  }

  lemma {:induction false} Pow2Positive(n: nat)
    ensures Pow2(n) >= 1.0
  {
    if n > 0 {
      Pow2Positive(n - 1);
    }
  }

  function OrElse<T>(option: Option<T>, fallback: T): T {
    if option.Some? then option.value else fallback
  }

  /** A builder: every accepted call appends one node under a name not used before. A call
      that is refused for lack of branches has already used up its name. */
  class Builder {
    const name: string
    var nodes: seq<Node>
    var names: set<string>

    ghost predicate Valid()
      reads this
    {
      && DistinctNames(nodes)
      && "" !in names
      && (forall i :: 0 <= i < |nodes| ==> nodes[i].name in names)
      && (forall i :: 0 <= i < |nodes| && nodes[i].Route? ==> nodes[i].branches != [])
    }

    constructor (name: string)
      requires name != ""
      ensures Valid() && nodes == [] && names == {}
    {
      this.name := name;
      nodes, names := [], {};
    }

    method Claim(nodeName: string) returns (refused: Option<BuildError>)
      requires Valid()
      modifies this`names
      ensures Valid()
      ensures refused == (if nodeName == "" then Some(EmptyName)
                          else if nodeName in old(names) then Some(DuplicateName(nodeName)) else None)
      ensures names == if refused.None? then old(names) + {nodeName} else old(names)
    {
      if nodeName == "" {
        return Some(EmptyName);
      }
      if nodeName in names {
        return Some(DuplicateName(nodeName));
      }
      names := names + {nodeName};
      return None;
    }

    /** Shared end of the builder calls: claim the name, then append the node. */
    method Append(node: Node) returns (refused: Option<BuildError>)
      requires Valid() && !node.Route?
      modifies this
      ensures Valid()
      ensures refused.None? <==> node.name != "" && node.name !in old(names)
      ensures nodes == if refused.None? then old(nodes) + [node] else old(nodes)
      ensures names == if refused.None? then old(names) + {node.name} else old(names)
    {
      refused := Claim(node.name);
      if refused.None? {
        nodes := nodes + [node];
      }
    }

    method AddStep(nodeName: string, handler: Handler, compensate: Option<Compensator>, maxAttempts: Option<int>,
        backoff: Option<Backoff>) returns (refused: Option<BuildError>)
      requires Valid()
      modifies this
      ensures Valid()
      ensures nodes == if refused.Some? then old(nodes) else old(nodes) + [
        Step(nodeName, handler, compensate, OrElse(maxAttempts, DEFAULT_MAX_ATTEMPTS), OrElse(backoff, DefaultBackoff))]
      ensures refused.None? <==> nodeName != "" && nodeName !in old(names)
    {
      refused := Append(
        Step(nodeName, handler, compensate, OrElse(maxAttempts, DEFAULT_MAX_ATTEMPTS),
          OrElse(backoff, DefaultBackoff)));
    }

    method AddSleep(nodeName: string, delay: (Ctx, World) -> real) returns (refused: Option<BuildError>)
      requires Valid()
      modifies this
      ensures Valid()
      ensures nodes == if refused.Some? then old(nodes) else old(nodes) + [Sleep(nodeName, delay)]
      ensures refused.None? <==> nodeName != "" && nodeName !in old(names)
    {
      refused := Append(Sleep(nodeName, delay));
    }

    method AddWaitForSignal(nodeName: string, signalName: (Ctx, World) -> string)
      returns (refused: Option<BuildError>)
      requires Valid()
      modifies this
      ensures Valid()
      ensures nodes == if refused.Some? then old(nodes) else old(nodes) + [WaitForSignal(nodeName, signalName)]
      ensures refused.None? <==> nodeName != "" && nodeName !in old(names)
    {
      refused := Append(WaitForSignal(nodeName, signalName));
    }

    method AddParallel(nodeName: string, branches: seq<(string, Handler)>, maxAttempts: Option<int>,
        backoff: Option<Backoff>) returns (refused: Option<BuildError>)
      requires Valid()
      modifies this
      ensures Valid()
      ensures nodes == if refused.Some? then old(nodes) else old(nodes) + [
        Parallel(nodeName, branches, OrElse(maxAttempts, DEFAULT_MAX_ATTEMPTS), OrElse(backoff, DefaultBackoff))]
      ensures refused.None? <==> nodeName != "" && nodeName !in old(names) && branches != []
      ensures nodeName != "" ==> nodeName in names
    {
      refused := Claim(nodeName);
      if refused.Some? {
        return;
      }
      if branches == [] {
        return Some(NoBranches(nodeName));
      }
      nodes := nodes + [
        Parallel(nodeName, branches, OrElse(maxAttempts, DEFAULT_MAX_ATTEMPTS), OrElse(backoff, DefaultBackoff))];
    }

    method AddRoute(nodeName: string, select: (Ctx, World) -> Result<string, string>,
        branches: seq<(string, Handler)>, maxAttempts: Option<int>, backoff: Option<Backoff>)
      returns (refused: Option<BuildError>)
      requires Valid()
      modifies this
      ensures Valid()
      ensures nodes == if refused.Some? then old(nodes) else old(nodes) + [
        Route(nodeName, select, branches, OrElse(maxAttempts, DEFAULT_MAX_ATTEMPTS), OrElse(backoff, DefaultBackoff))]
      ensures refused.None? <==> nodeName != "" && nodeName !in old(names) && branches != []
      ensures nodeName != "" ==> nodeName in names
    {
      refused := Claim(nodeName);
      if refused.Some? {
        return;
      }
      if branches == [] {
        return Some(NoBranches(nodeName));
      }
      nodes := nodes + [
        Route(nodeName, select, branches, OrElse(maxAttempts, DEFAULT_MAX_ATTEMPTS), OrElse(backoff, DefaultBackoff))];
    }

    method AddLoop(nodeName: string, condition: (Ctx, nat, World) -> Result<bool, string>,
        body: (Ctx, nat, World) -> Result<Value, string>, maxIterations: Option<int>, maxAttempts: Option<int>,
        backoff: Option<Backoff>) returns (refused: Option<BuildError>)
      requires Valid()
      modifies this
      ensures Valid()
      ensures nodes == if refused.Some? then old(nodes) else old(nodes) + [
        Loop(nodeName, condition, body, OrElse(maxIterations, DEFAULT_MAX_ITERATIONS),
          OrElse(maxAttempts, DEFAULT_MAX_ATTEMPTS), OrElse(backoff, DefaultBackoff))]
      ensures refused.None? <==> nodeName != "" && nodeName !in old(names)
    {
      refused := Append(
        Loop(nodeName, condition, body, OrElse(maxIterations, DEFAULT_MAX_ITERATIONS),
          OrElse(maxAttempts, DEFAULT_MAX_ATTEMPTS), OrElse(backoff, DefaultBackoff)));
    }

    method AddChildWorkflow(nodeName: string, start: (Ctx, World) -> Result<ChildSpec, string>,
        pollIntervalSec: Option<real>) returns (refused: Option<BuildError>)
      requires Valid()
      modifies this
      ensures Valid()
      ensures nodes == if refused.Some? then old(nodes) else old(nodes) + [
        ChildWorkflow(nodeName, start, OrElse(pollIntervalSec, DEFAULT_CHILD_POLL_SEC))]
      ensures refused.None? <==> nodeName != "" && nodeName !in old(names)
    {
      refused := Append(ChildWorkflow(nodeName, start, OrElse(pollIntervalSec, DEFAULT_CHILD_POLL_SEC)));
    }
  }

  /** Registration refuses to shadow a workflow, so runs in flight keep their steps. */
  class WorkflowRegistry {
    var workflows: Registry

    constructor ()
      ensures workflows == map[]
    {
      workflows := map[];
    }

    method Register(workflow: Workflow) returns (accepted: bool)
      modifies this
      ensures accepted == (workflow.name !in old(workflows))
      ensures workflows == if accepted then old(workflows)[workflow.name := workflow] else old(workflows)
      ensures forall name :: name in old(workflows) ==> name in workflows && workflows[name] == old(workflows)[name]
    {
      accepted := workflow.name !in workflows;
      if accepted {
        workflows := workflows[workflow.name := workflow];
      }
    }
  }
}
