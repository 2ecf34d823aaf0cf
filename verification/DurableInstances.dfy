/** Harmless callbacks for any declaration: every node passes, and one chosen loop goes a given
    number of rounds. */
module DurableInstances {
  import opened Prelude
  import opened DurableTypes
  import opened DurableSpec
  import opened DurableJournal
  import opened DurableBigStep
  import opened DurableShapes

  function Calm(c: Ctx, w: World): Result<Value, string> {
    Ok(Bool(false))
  }

  function NoDelay(c: Ctx, w: World): real {
    0.0
  }

  function Go(c: Ctx, w: World): string {
    "go"
  }

  function Round(c: Ctx, i: nat, w: World): Result<Value, string> {
    Ok(Bool(true))
  }

  function CalmBranches(branches: seq<(string, Handler)>): (calm: seq<(string, Handler)>)
    ensures |calm| == |branches|
    ensures forall i :: 0 <= i < |calm| ==> calm[i] == (branches[i].0, Calm)
  {
    if branches == [] then []
    else CalmBranches(branches[..|branches| - 1]) + [(branches[|branches| - 1].0, Calm)]
  }

  /** The builder gives every route at least one branch. */
  predicate RoutesHaveBranches(nodes: seq<Node>) {
    forall i :: 0 <= i < |nodes| && nodes[i].Route? ==> nodes[i].branches != []
  }

  function Instance(node: Node, rounds: nat): Node
    requires !node.ChildWorkflow? && (node.Route? ==> node.branches != [])
  {
    match node
    case Step(name, _, undo, attempts, backoff) => Step(name, Calm, undo, attempts, backoff)
    case Sleep(name, _) => Sleep(name, NoDelay)
    case WaitForSignal(name, _) => WaitForSignal(name, Go)
    case Parallel(name, branches, attempts, backoff) => Parallel(name, CalmBranches(branches), attempts, backoff)
    case Route(name, _, branches, attempts, backoff) =>
      Route(name, (c: Ctx, w: World) => Ok(branches[0].0), CalmBranches(branches), attempts, backoff)
    case Loop(name, _, _, bound, attempts, backoff) =>
      Loop(name, (c: Ctx, i: nat, w: World) => Ok(i < rounds), Round, bound, attempts, backoff)
  }

  function Instances(nodes: seq<Node>, loop: nat, rounds: nat): (steps: seq<Node>)
    requires RoutesHaveBranches(nodes) && forall i :: 0 <= i < |nodes| ==> !nodes[i].ChildWorkflow?
    ensures |steps| == |nodes|
    ensures forall i :: 0 <= i < |nodes| ==> steps[i] == Instance(nodes[i], RoundsOf(i, loop, rounds))
  {
    seq(|nodes|, i requires 0 <= i < |nodes| => Instance(nodes[i], RoundsOf(i, loop, rounds)))
  }

  function RoundsOf(i: nat, loop: nat, rounds: nat): nat {
    if i == loop then rounds else 0
  }

  lemma InstanceIsVariant(node: Node, rounds: nat)
    requires !node.ChildWorkflow? && (node.Route? ==> node.branches != [])
    ensures SameNode(node, Instance(node, rounds)) && PureNode(Instance(node, rounds))
  {
    if node.Parallel? || node.Route? {
      assert BranchKeys(CalmBranches(node.branches)) == BranchKeys(node.branches);
    }
  }

  lemma InstancesAreVariant(nodes: seq<Node>, loop: nat, rounds: nat)
    requires RoutesHaveBranches(nodes) && ChildFree(nodes)
    ensures Variant(nodes, Instances(nodes, loop, rounds))
  {
    forall i | 0 <= i < |nodes|
      ensures SameNode(nodes[i], Instances(nodes, loop, rounds)[i]) && PureNode(Instances(nodes, loop, rounds)[i])
    {
      InstanceIsVariant(nodes[i], RoundsOf(i, loop, rounds));
    }
  }

  // ----- What the callbacks answer -------------------------------------------------------------------------

  lemma {:induction false} CalmBranchesResolve(branches: seq<(string, Handler)>, ctx: Ctx, w: World)
    ensures Rejections(CalmBranches(branches), ctx, w) == []
  {
    var calm := CalmBranches(branches);
    if branches != [] {
      CalmBranchesResolve(branches[..|branches| - 1], ctx, w);
      assert calm[..|calm| - 1] == CalmBranches(branches[..|branches| - 1]);
      assert calm[|calm| - 1].1(ctx, w) == Ok(Bool(false));
    }
  }

  lemma {:induction false} CalmBranchFound(branches: seq<(string, Handler)>, i: nat)
    requires i < |branches|
    ensures FindBranch(CalmBranches(branches), branches[i].0) == Some(Calm)
  {
    var calm := CalmBranches(branches);
    if branches[|branches| - 1].0 != branches[i].0 {
      CalmBranchFound(branches[..|branches| - 1], i);
      assert calm[..|calm| - 1] == CalmBranches(branches[..|branches| - 1]);
    }
  }

  /** A handler of an instance always succeeds, and never with `true`. */
  lemma HandlerPasses(node: Node, rounds: nat, ctx: Ctx, w: World)
    requires (node.Step? || node.Parallel? || node.Route?) && (node.Route? ==> node.branches != [])
    ensures var handled := RunHandler(Instance(node, rounds), ctx, w);
      handled.Ok? && handled.value != Bool(true)
  {
    match node {
      case Step(_, _, _, _, _) =>
      case Parallel(_, branches, _, _) => CalmBranchesResolve(branches, ctx, w);
      case Route(_, _, branches, _, _) =>
        CalmBranchFound(branches, 0);
        assert Calm(ctx, w) == Ok(Bool(false));
    }
  }

  function Trues(n: nat): (values: seq<Value>)
    ensures |values| == n && forall i :: 0 <= i < n ==> values[i] == Bool(true)
  {
    if n == 0 then [] else Trues(n - 1) + [Bool(true)]
  }

  /** A loop that has rounds to go and stops short of its bound. */
  lemma {:induction false} LoopPasses(node: Node, rounds: nat, input: Value, results: map<string, Value>, r: RunId,
      slot: Slot, attempt: nat)
    requires node.Loop? && slot.iteration <= rounds < node.maxIterations
    ensures Looping(Instance(node, rounds), input, results, r, slot, attempt)
      == Ok(List(slot.results + Trues(rounds - slot.iteration)))
    decreases rounds - slot.iteration
  {
    var ctx := Ctx(input, results, r, attempt);
    var loop := Instance(node, rounds);
    assert loop.condition(ctx, slot.iteration, HERE) == Ok(slot.iteration < rounds);
    if slot.iteration < rounds {
      assert loop.body(ctx, slot.iteration, HERE) == Ok(Bool(true));
      LoopPasses(node, rounds, input, results, r, Slot(slot.iteration + 1, slot.results + [Bool(true)]), attempt);
      assert [Bool(true)] + Trues(rounds - slot.iteration - 1) == Trues(rounds - slot.iteration);
      Assoc(slot.results, [Bool(true)], Trues(rounds - slot.iteration - 1));
    } else {
      NilRight(slot.results);
    }
  }

  /** The payload that every signal brings. */
  function Payload(name: string): Value {
    Bool(false)
  }

  /** Every node has an answer of its own, unless it is a loop with too many rounds to go, and
      only the chosen loop's answer holds anything `true`. */
  lemma OwnPasses(node: Node, rounds: nat, input: Value, results: map<string, Value>, r: RunId)
    requires !node.ChildWorkflow? && (node.Route? ==> node.branches != [])
    requires node.Loop? ==> rounds < node.maxIterations
    ensures var own := Own(Instance(node, rounds), input, results, r, Payload);
      && own.Ok? && own.value != Bool(true)
      && (node.Loop? ==> own.value == List(Trues(rounds)))
  {
    if node.Loop? {
      LoopPasses(node, rounds, input, results, r, Slot(0, []), 1);
      assert [] + Trues(rounds) == Trues(rounds);
    } else if !node.Sleep? && !node.WaitForSignal? {
      HandlerPasses(node, rounds, Ctx(input, results, r, 1), HERE);
    }
  }

  /** Nor does a loop that fails answer `true`. */
  lemma OwnIsNotTrue(node: Node, rounds: nat, input: Value, results: map<string, Value>, r: RunId)
    requires !node.ChildWorkflow? && (node.Route? ==> node.branches != []) && rounds == 0
    ensures Own(Instance(node, rounds), input, results, r, Payload) != Ok(Bool(true))
  {
    if !Dead(node) {
      OwnPasses(node, rounds, input, results, r);
    }
  }
}
