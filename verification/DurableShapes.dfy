/** What a workflow declares apart from its callbacks, and what it means that the engine runs
    every workflow of one shape as the interpreter does. */
module DurableShapes {
  import opened Prelude
  import opened DurableTypes
  import opened DurableSpec
  import opened DurableJournal
  import opened DurableBigStep

  // ----- Shapes ---------------------------------------------------------------------------------------

  /** Same kind, name, bounds and branch keys. */
  predicate SameNode(a: Node, b: Node) {
    && a.name == b.name
    && match (a, b)
       case (Step(_, _, undoA, attemptsA, _), Step(_, _, undoB, attemptsB, _)) =>
         attemptsA == attemptsB && (undoA.Some? <==> undoB.Some?)
       case (Sleep(_, _), Sleep(_, _)) => true
       case (WaitForSignal(_, _), WaitForSignal(_, _)) => true
       case (Parallel(_, branchesA, attemptsA, _), Parallel(_, branchesB, attemptsB, _)) =>
         attemptsA == attemptsB && BranchKeys(branchesA) == BranchKeys(branchesB)
       case (Route(_, _, branchesA, attemptsA, _), Route(_, _, branchesB, attemptsB, _)) =>
         attemptsA == attemptsB && BranchKeys(branchesA) == BranchKeys(branchesB)
       case (Loop(_, _, _, boundA, attemptsA, _), Loop(_, _, _, boundB, attemptsB, _)) =>
         boundA == boundB && attemptsA == attemptsB
       case _ => false
  }

  predicate SameShape(nodes: seq<Node>, steps: seq<Node>) {
    |nodes| == |steps| && forall i :: 0 <= i < |nodes| ==> SameNode(nodes[i], steps[i])
  }

  /** The same declaration with callbacks that depend on their context only. */
  ghost predicate Variant(nodes: seq<Node>, steps: seq<Node>) {
    SameShape(nodes, steps) && PureSteps(steps)
  }

  /** A loop that may not run even once. It always fails, so no later node is ever reached. */
  predicate Dead(node: Node) {
    node.Loop? && node.maxIterations <= 0
  }

  /** The nodes a run can reach: all up to the first dead loop. */
  function Reachable(nodes: seq<Node>): seq<Node> {
    if nodes == [] then []
    else if Dead(nodes[0]) then [nodes[0]]
    else [nodes[0]] + Reachable(nodes[1..])
  }

  lemma {:induction false} ReachableIsPrefix(nodes: seq<Node>)
    ensures var n := |Reachable(nodes)|;
      && n <= |nodes| && Reachable(nodes) == nodes[..n]
      && (forall i :: 0 <= i < n - 1 ==> !Dead(nodes[i]))
      && (n < |nodes| ==> n > 0 && Dead(nodes[n - 1]))
  {
    if nodes != [] && !Dead(nodes[0]) {
      ReachableIsPrefix(nodes[1..]);
      var n := |Reachable(nodes)|;
      assert nodes == [nodes[0]] + nodes[1..];
      forall i | 0 <= i < n - 1
        ensures !Dead(nodes[i])
      {
        if i > 0 {
          assert nodes[i] == nodes[1..][i - 1];
        }
      }
    }
  }

  lemma ShapeKeepsNaming(nodes: seq<Node>, steps: seq<Node>, n: nat)
    requires SameShape(nodes, steps) && n <= |nodes| && WellNamed(nodes[..n])
    ensures WellNamed(steps[..n])
  {
    var a, b := nodes[..n], steps[..n];
    forall i, j | 0 <= i < j < n
      ensures b[i].name != b[j].name
    {
      assert a[i].name != a[j].name && SameNode(nodes[i], steps[i]) && SameNode(nodes[j], steps[j]);
    }
    forall i, j, k: nat | 0 <= i < n && 0 <= j < n && Clash(b, i, j, k)
      ensures Harmless(b, i, j, k)
    {
      assert SameNode(nodes[i], steps[i]) && SameNode(nodes[j], steps[j]);
      assert Clash(a, i, j, k);
    }
  }

  lemma ShapeKeepsReach(nodes: seq<Node>, steps: seq<Node>)
    requires SameShape(nodes, steps)
    ensures |Reachable(steps)| == |Reachable(nodes)|
    decreases |nodes|
  {
    if nodes != [] {
      assert SameNode(nodes[0], steps[0]);
      forall i | 0 <= i < |nodes| - 1
        ensures SameNode(nodes[1..][i], steps[1..][i])
      {
        assert SameNode(nodes[i + 1], steps[i + 1]);
      }
      ShapeKeepsReach(nodes[1..], steps[1..]);
    }
  }

  // ----- What the engine should do with a shape ---------------------------------------------------------

  /** A registry of one workflow. */
  function Alone(steps: seq<Node>): Registry {
    map["w" := Workflow("w", steps)]
  }

  lemma AloneOk(steps: seq<Node>)
    requires WellNamed(steps) && ChildFree(steps)
    ensures RegistryOk(Alone(steps))
  {
  }

  /** A run of the workflow, and payloads that agree with the signals it accepted. */
  ghost predicate Observed(steps: seq<Node>, events: seq<Event>, r: RunId, signals: string -> Value) {
    r in Exec(Alone(steps), events).runs && SignalsAgree(Exec(Alone(steps), events).log, r, signals)
  }

  /** The results stored so far are the nodes' own, if the run is rolling back or has failed the
      node under its cursor has failed with that error, and if it is completed its result is
      that of all nodes. */
  predicate Truthful(steps: seq<Node>, run: Run, r: RunId, signals: string -> Value)
    requires ChildFree(steps)
  {
    && run.currentStep <= |steps|
    && ResultsUpTo(steps, run.input, r, signals, run.currentStep) == Some(run.state.results)
    && FailsTruly(steps, run, r, signals)
    && (run.status == Completed ==> run.currentStep == |steps| && run.result == Some(run.state.results))
  }

  ghost predicate TruthfulRun(steps: seq<Node>, events: seq<Event>, r: RunId, signals: string -> Value)
    requires ChildFree(steps)
  {
    r in Exec(Alone(steps), events).runs && Truthful(steps, Exec(Alone(steps), events).runs[r], r, signals)
  }

  /** The engine runs every workflow of this shape as the interpreter does, however jobs are
      redelivered. */
  ghost predicate Sound(nodes: seq<Node>) {
    forall steps, events, r, signals :: Variant(nodes, steps) && Observed(steps, events, r, signals) ==>
      TruthfulRun(steps, events, r, signals)
  }

  /** The same if every job is delivered exactly once. */
  ghost predicate SoundOnce(nodes: seq<Node>) {
    forall steps, events, r, signals ::
      Variant(nodes, steps) && ExactlyOnce(events) && Observed(steps, events, r, signals) ==>
        TruthfulRun(steps, events, r, signals)
  }
}
