/** The lines emitted for a well-formed template load, and running them renders the template. */
module CompilerRuns {
  import opened Prelude
  import opened ViewText
  import opened ViewHost
  import opened Template
  import opened EmittedJs
  import opened Compiler
  import opened CompilerCorrect

  // ----- The statements of a template ---------------------------------------------------------------------------

  lemma LeafJsOne(host: Host, token: Token)
    requires LeafOk(host, token)
    ensures |LeafJs(host, token)| <= 1 && forall i :: 0 <= i < |LeafJs(host, token)| ==> Plain(LeafJs(host, token)[i])
  {
  }

  /** The code of a template, followed by `next`. */
  function CodeOf(host: Host, nodes: Nodes, depth: nat, next: Code): Code
    requires WellFormed(host, nodes)
    decreases nodes, 0
  {
    match nodes
    case NoNodes => next
    case Cons(head, tail) => NodeCode(host, head, depth, CodeOf(host, tail, depth, next))
  }

  function NodeCode(host: Host, node: Node, depth: nat, next: Code): Code
    requires NodeOk(host, node)
    decreases node, 0
  {
    match node
    case Leaf(token) => if LeafJs(host, token) == [] then next else Seq(Simple(LeafJs(host, token)[0]), next)
    case IfNode(open, body, rest) =>
      Seq(If(When(open.args.value), CodeOf(host, body, depth + 1, Skip), TailCode(host, rest, depth)), next)
    case EachNode(open, body, _) => Seq(EachCode(host, open, depth, CodeOf(host, body, depth + 1, Skip), Skip), next)
    case EachElse(open, body, _, otherwise, _) =>
      Seq(EachCode(host, open, depth, CodeOf(host, body, depth + 1, Skip), CodeOf(host, otherwise, depth + 1, Skip)),
        next)
    case Wrap(open, body, _) => Seq(WrapCode(host, open, body, depth), next)
  }

  function WrapCode(host: Host, open: Token, body: Nodes, depth: nat): Stmt
    requires OpenOk(host, open) && WellFormed(host, body)
    decreases body, 1
  {
    if open.directive == AtFor then For(ForOf(open.args.value), CodeOf(host, body, depth + 1, Skip))
    else
      Block(Seq(Simple(ConstOuter), Seq(Simple(ClearOut), CodeOf(host, body, depth + 1, EndCode(FrameOf(host, open))))))
  }

  function EachCode(host: Host, open: Token, depth: nat, body: Code, otherwise: Code): Stmt
    requires EachOk(host, open)
  {
    var (item, coll) := host.syntax.each(open.args.value).value;
    Block(Seq(Simple(ConstEach(depth, coll)),
      Seq(If(EachHasItems(depth), Seq(For(EachOf(item, depth), body), Skip), otherwise), Skip)))
  }

  function TailCode(host: Host, tail: IfTail, depth: nat): Code
    requires TailOk(host, tail)
    decreases tail, 0
  {
    match tail
    case EndIf(_) => Skip
    case ElseIf(token, body, rest) =>
      Seq(If(When(token.args.value), CodeOf(host, body, depth + 1, Skip), TailCode(host, rest, depth)), Skip)
    case Else(_, body, _) => CodeOf(host, body, depth + 1, Skip)
  }

  /** What ends a capturing block. */
  function EndCode(frame: Frame): Code {
    match frame.kind
    case AtSection => Seq(Simple(CallSection(frame.name)), Seq(Simple(RestoreOut), Skip))
    case AtPush => Seq(Simple(CallPush(frame.name)), Seq(Simple(RestoreOut), Skip))
    case AtPrepend => Seq(Simple(CallPrepend(frame.name)), Seq(Simple(RestoreOut), Skip))
    case AtComponent =>
      Seq(Simple(ConstSlot), Seq(Simple(RestoreOut), Seq(Simple(Append(ComponentCall(frame.name, frame.props))), Skip)))
    case _ => Skip
  }

  // ----- Loading --------------------------------------------------------------------------------------------------

  predicate Loads(js: seq<Js>, code: Code, rest: seq<Js>) {
    ParseCode(js) == Some((code, rest))
  }

  lemma Tail<T>(x: T, s: seq<T>)
    ensures ([x] + s)[0] == x && ([x] + s)[1..] == s
  {
  }

  lemma LoadPlain(js: Js, more: seq<Js>, code: Code, rest: seq<Js>)
    requires Plain(js) && Loads(more, code, rest)
    ensures Loads([js] + more, Seq(Simple(js), code), rest)
  {
    Tail(js, more);
  }

  lemma LoadClose(more: seq<Js>)
    ensures Loads([Close] + more, Skip, [Close] + more)
  {
  }

  lemma LoadBody(js: seq<Js>, body: Code, more: seq<Js>)
    requires Loads(js, body, [Close] + more)
    ensures ParseBody(js) == Some((body, more))
  {
    Tail(Close, more);
  }

  /** `js` starts with a whole statement, and `more` is what follows it. */
  predicate LoadsStmt(js: seq<Js>, stmt: Stmt, more: seq<Js>) {
    js != [] && !js[0].Close? && ParseStmt(js) == Some((stmt, more))
  }

  lemma LoadBlock(js: seq<Js>, body: Code, more: seq<Js>)
    requires Loads(js, body, [Close] + more)
    ensures LoadsStmt([OpenBlock] + js, Block(body), more)
  {
    LoadBody(js, body, more);
    Tail(OpenBlock, js);
  }

  lemma LoadFor(header: Header, js: seq<Js>, body: Code, more: seq<Js>)
    requires Loads(js, body, [Close] + more)
    ensures LoadsStmt([OpenFor(header)] + js, For(header, body), more)
  {
    LoadBody(js, body, more);
    Tail(OpenFor(header), js);
  }

  lemma LoadStmt(js: seq<Js>, stmt: Stmt, more: seq<Js>, code: Code, rest: seq<Js>)
    requires LoadsStmt(js, stmt, more) && Loads(more, code, rest)
    ensures Loads(js, Seq(stmt, code), rest)
  {
  }

  /** No statement list that loads starts with `else`. */
  predicate NoElse(js: seq<Js>) {
    js == [] || (!js[0].OpenElse? && !js[0].OpenElseIf?)
  }

  lemma LoadsNoElse(js: seq<Js>)
    ensures ParseCode(js).Some? ==> NoElse(js)
  {
    if !NoElse(js) {
      assert ParseStmt(js) == None;
    }
  }

  lemma LoadIf(test: Test, js: seq<Js>, stmt: Stmt, more: seq<Js>)
    requires ParseIf(test, js) == Some((stmt, more))
    ensures LoadsStmt([OpenIf(test)] + js, stmt, more)
  {
    Tail(OpenIf(test), js);
  }

  lemma LoadIfOnly(test: Test, js: seq<Js>, body: Code, more: seq<Js>)
    requires Loads(js, body, [Close] + more) && NoElse(more)
    ensures ParseIf(test, js) == Some((If(test, body, Skip), more))
  {
    LoadBody(js, body, more);
  }

  lemma LoadIfElse(test: Test, js: seq<Js>, body: Code, js1: seq<Js>, otherwise: Code, more: seq<Js>)
    requires Loads(js, body, [Close] + ([OpenElse] + js1)) && Loads(js1, otherwise, [Close] + more)
    ensures ParseIf(test, js) == Some((If(test, body, otherwise), more))
  {
    LoadBody(js, body, [OpenElse] + js1);
    LoadBody(js1, otherwise, more);
    Tail(OpenElse, js1);
  }

  lemma LoadIfElseIf(test: Test, js: seq<Js>, body: Code, test1: Test, js1: seq<Js>, stmt: Stmt, more: seq<Js>)
    requires Loads(js, body, [Close] + ([OpenElseIf(test1)] + js1)) && ParseIf(test1, js1) == Some((stmt, more))
    ensures ParseIf(test, js) == Some((If(test, body, Seq(stmt, Skip)), more))
  {
    LoadBody(js, body, [OpenElseIf(test1)] + js1);
    Tail(OpenElseIf(test1), js1);
  }

  // ----- Loading a template -------------------------------------------------------------------------------------

  /** `code` put after a template, where loading goes on. */
  function Before(host: Host, nodes: Nodes, depth: nat, loaded: Option<(Code, seq<Js>)>): Option<(Code, seq<Js>)>
    requires WellFormed(host, nodes)
  {
    match loaded
    case None => None
    case Some((code, rest)) => Some((CodeOf(host, nodes, depth, code), rest))
  }

  function BeforeNode(host: Host, node: Node, depth: nat, loaded: Option<(Code, seq<Js>)>): Option<(Code, seq<Js>)>
    requires NodeOk(host, node)
  {
    match loaded
    case None => None
    case Some((code, rest)) => Some((NodeCode(host, node, depth, code), rest))
  }

  lemma {:induction false} NodesLoad(host: Host, nodes: Nodes, depth: nat, more: seq<Js>)
    requires WellFormed(host, nodes) && NoElse(more)
    ensures NoElse(EmitNodes(host, nodes, depth) + more)
    ensures ParseCode(EmitNodes(host, nodes, depth) + more) == Before(host, nodes, depth, ParseCode(more))
    decreases nodes, 0
  {
    match nodes {
      case NoNodes =>
        assert [] + more == more;
      case Cons(head, tail) =>
        NodesLoad(host, tail, depth, more);
        NodeLoads(host, head, depth, EmitNodes(host, tail, depth) + more);
        Assoc(EmitNode(host, head, depth), EmitNodes(host, tail, depth), more);
    }
  }

  lemma {:induction false} NodeLoads(host: Host, node: Node, depth: nat, more: seq<Js>)
    requires NodeOk(host, node) && NoElse(more)
    ensures NoElse(EmitNode(host, node, depth) + more)
    ensures ParseCode(EmitNode(host, node, depth) + more) == BeforeNode(host, node, depth, ParseCode(more))
    decreases node, 2
  {
    if node.Leaf? {
      LeafLoads(host, node.token, depth, more);
    } else {
      BlockLoads(host, node, depth, more);
      StmtLoads(EmitNode(host, node, depth) + more, NodeStmt(host, node, depth), more);
    }
  }

  /** The statement of a block. */
  function NodeStmt(host: Host, node: Node, depth: nat): Stmt
    requires NodeOk(host, node) && !node.Leaf?
  {
    NodeCode(host, node, depth, Skip).head
  }

  lemma StmtLoads(js: seq<Js>, stmt: Stmt, more: seq<Js>)
    requires LoadsStmt(js, stmt, more)
    ensures NoElse(js)
    ensures ParseCode(js) ==
      match ParseCode(more)
      case None => None
      case Some((code, rest)) => Some((Seq(stmt, code), rest))
  {
  }

  lemma {:induction false} BlockLoads(host: Host, node: Node, depth: nat, more: seq<Js>)
    requires NodeOk(host, node) && !node.Leaf? && NoElse(more)
    ensures LoadsStmt(EmitNode(host, node, depth) + more, NodeStmt(host, node, depth), more)
    decreases node, 1
  {
    match node {
      case IfNode(open, body, tail) => IfNodeLoads(host, open, body, tail, depth, more);
      case EachNode(open, body, _) => EachLoads(host, open, body, depth, more);
      case EachElse(open, body, _, otherwise, _) => EachElseLoads(host, node, depth, more);
      case Wrap(_, _, _) => WrapLoads(host, node, depth, more);
    }
  }

  lemma {:induction false} WrapLoads(host: Host, node: Node, depth: nat, more: seq<Js>)
    requires node.Wrap? && NodeOk(host, node)
    ensures LoadsStmt(EmitNode(host, node, depth) + more, WrapCode(host, node.open, node.body, depth), more)
    decreases node, 0
  {
    if node.open.directive == AtFor {
      ForLoads(host, node.open, node.body, depth, more);
    } else {
      CaptureLoads(host, node.open, node.body, depth, more);
    }
  }

  lemma LeafLoads(host: Host, token: Token, depth: nat, more: seq<Js>)
    requires LeafOk(host, token) && NoElse(more)
    ensures NoElse(LeafJs(host, token) + more)
    ensures ParseCode(LeafJs(host, token) + more) == BeforeNode(host, Leaf(token), depth, ParseCode(more))
  {
    LeafJsOne(host, token);
    var js := LeafJs(host, token);
    if js == [] {
      assert js + more == more;
    } else {
      assert js == [js[0]];
      Tail(js[0], more);
    }
  }

  /** A body before whatever closes it. */
  lemma {:induction false} BodyLoads(host: Host, body: Nodes, depth: nat, more: seq<Js>)
    requires WellFormed(host, body)
    ensures Loads(EmitNodes(host, body, depth) + ([Close] + more), CodeOf(host, body, depth, Skip), [Close] + more)
    decreases body, 1
  {
    LoadClose(more);
    NodesLoad(host, body, depth, [Close] + more);
  }

  lemma LoadTail(host: Host, tail: IfTail, depth: nat, more: seq<Js>)
    requires TailOk(host, tail)
    ensures NoElse(EmitTail(host, tail, depth) + more)
    ensures Loads(EmitTail(host, tail, depth) + more, Skip, EmitTail(host, tail, depth) + more)
  {
  }

  lemma {:induction false} IfNodeLoads(host: Host, open: Token, body: Nodes, tail: IfTail, depth: nat, more: seq<Js>)
    requires Is(open, AtIf) && HasArgs(host, open.args) && WellFormed(host, body) && TailOk(host, tail) && NoElse(more)
    ensures LoadsStmt(
      ([OpenIf(When(open.args.value))] + (EmitNodes(host, body, depth + 1) + EmitTail(host, tail, depth))) + more,
      If(When(open.args.value), CodeOf(host, body, depth + 1, Skip), TailCode(host, tail, depth)), more)
    decreases IfNode(open, body, tail), 0
  {
    var js, code := EmitNodes(host, body, depth + 1), CodeOf(host, body, depth + 1, Skip);
    var test := When(open.args.value);
    LoadTail(host, tail, depth, more);
    NodesLoad(host, body, depth + 1, EmitTail(host, tail, depth) + more);
    IfLoads(host, test, js, code, tail, depth, more);
    LoadIf(test, js + (EmitTail(host, tail, depth) + more), If(test, code, TailCode(host, tail, depth)), more);
    Assoc(js, EmitTail(host, tail, depth), more);
    Assoc([OpenIf(test)], js + EmitTail(host, tail, depth), more);
  }

  /** An `if` whose body is known to load, up to the end of its chain. */
  lemma {:induction false} IfLoads(host: Host, test: Test, js: seq<Js>, code: Code, tail: IfTail, depth: nat,
      more: seq<Js>)
    requires TailOk(host, tail) && NoElse(more)
    requires Loads(js + (EmitTail(host, tail, depth) + more), code, EmitTail(host, tail, depth) + more)
    ensures ParseIf(test, js + (EmitTail(host, tail, depth) + more))
      == Some((If(test, code, TailCode(host, tail, depth)), more))
    decreases tail, 2
  {
    match tail {
      case EndIf(_) => LoadIfOnly(test, js + ([Close] + more), code, more);
      case ElseIf(token, body1, rest) =>
        var test1 := When(token.args.value);
        var js1, code1 := EmitNodes(host, body1, depth + 1), CodeOf(host, body1, depth + 1, Skip);
        LoadTail(host, rest, depth, more);
        NodesLoad(host, body1, depth + 1, EmitTail(host, rest, depth) + more);
        IfLoads(host, test1, js1, code1, rest, depth, more);
        SplitMiddle(Close, OpenElseIf(test1), js1, EmitTail(host, rest, depth), more);
        LoadIfElseIf(test, js + (EmitTail(host, tail, depth) + more), code, test1,
          js1 + (EmitTail(host, rest, depth) + more), If(test1, code1, TailCode(host, rest, depth)), more);
      case Else(_, body1, _) =>
        var js1, code1 := EmitNodes(host, body1, depth + 1), CodeOf(host, body1, depth + 1, Skip);
        BodyLoads(host, body1, depth + 1, more);
        SplitMiddle(Close, OpenElse, js1, [Close], more);
        LoadIfElse(test, js + (EmitTail(host, tail, depth) + more), code, js1 + ([Close] + more), code1, more);
    }
  }

  lemma SplitMiddle(a: Js, b: Js, js: seq<Js>, end: seq<Js>, more: seq<Js>)
    ensures ([a, b] + (js + end)) + more == [a] + ([b] + (js + (end + more)))
  {
    Assoc([a, b], js + end, more);
    Assoc(js, end, more);
    assert [a, b] == [a] + [b];
    Assoc([a], [b], js + (end + more));
  }

  lemma {:induction false} ForLoads(host: Host, open: Token, body: Nodes, depth: nat, more: seq<Js>)
    requires OpenOk(host, open) && open.directive == AtFor && WellFormed(host, body)
    ensures LoadsStmt(
      (OpenLines(host, open, depth) + (EmitNodes(host, body, depth + 1) + CloseLines(FrameOf(host, open)))) + more,
      WrapCode(host, open, body, depth), more)
    decreases body, 2
  {
    var js := EmitNodes(host, body, depth + 1);
    BodyLoads(host, body, depth + 1, more);
    LoadFor(ForOf(open.args.value), js + ([Close] + more), CodeOf(host, body, depth + 1, Skip), more);
    Assoc([OpenFor(ForOf(open.args.value))], js + [Close], more);
    Assoc(js, [Close], more);
  }

  lemma EndLoads(frame: Frame, more: seq<Js>)
    requires frame.kind in {AtSection, AtPush, AtPrepend, AtComponent}
    ensures Loads(CloseLines(frame) + more, EndCode(frame), [Close] + more)
  {
    LoadClose(more);
    if frame.kind == AtComponent {
      var append := Append(ComponentCall(frame.name, frame.props));
      LoadPlain(append, [Close] + more, Skip, [Close] + more);
      LoadPlain(RestoreOut, [append] + ([Close] + more), Seq(Simple(append), Skip), [Close] + more);
      LoadPlain(ConstSlot, [RestoreOut] + ([append] + ([Close] + more)),
        Seq(Simple(RestoreOut), Seq(Simple(append), Skip)), [Close] + more);
      assert CloseLines(frame) + more == [ConstSlot] + ([RestoreOut] + ([append] + ([Close] + more)));
    } else {
      var call := CloseLines(frame)[0];
      LoadPlain(RestoreOut, [Close] + more, Skip, [Close] + more);
      LoadPlain(call, [RestoreOut] + ([Close] + more), Seq(Simple(RestoreOut), Skip), [Close] + more);
      assert CloseLines(frame) + more == [call] + ([RestoreOut] + ([Close] + more));
    }
  }

  lemma {:induction false} CaptureLoads(host: Host, open: Token, body: Nodes, depth: nat, more: seq<Js>)
    requires OpenOk(host, open) && open.directive != AtFor && WellFormed(host, body)
    ensures LoadsStmt(
      (OpenLines(host, open, depth) + (EmitNodes(host, body, depth + 1) + CloseLines(FrameOf(host, open)))) + more,
      WrapCode(host, open, body, depth), more)
    decreases body, 2
  {
    var js, end := EmitNodes(host, body, depth + 1), CloseLines(FrameOf(host, open));
    var inner := CodeOf(host, body, depth + 1, EndCode(FrameOf(host, open)));
    EndLoads(FrameOf(host, open), more);
    LoadsNoElse(end + more);
    NodesLoad(host, body, depth + 1, end + more);
    LoadPlain(ClearOut, js + (end + more), inner, [Close] + more);
    LoadPlain(ConstOuter, [ClearOut] + (js + (end + more)), Seq(Simple(ClearOut), inner), [Close] + more);
    LoadBlock([ConstOuter] + ([ClearOut] + (js + (end + more))), Seq(Simple(ConstOuter), Seq(Simple(ClearOut), inner)),
      more);
    ThreeFirst(OpenBlock, ConstOuter, ClearOut, js, end, more);
  }

  lemma ThreeFirst(a: Js, b: Js, c: Js, js: seq<Js>, end: seq<Js>, more: seq<Js>)
    ensures ([a, b, c] + (js + end)) + more == [a] + ([b] + ([c] + (js + (end + more))))
  {
    Assoc([a, b, c], js + end, more);
    Assoc(js, end, more);
    assert [a, b, c] + (js + (end + more)) == [a] + ([b] + ([c] + (js + (end + more))));
  }

  /** The opening lines of `@each`, a test with whatever closes it, and the end of its block. */
  lemma EachBlockLoads(host: Host, open: Token, depth: nat, js: seq<Js>, body: Code, otherwise: Code, more: seq<Js>)
    requires EachOk(host, open)
    requires var item := host.syntax.each(open.args.value).value.0;
      ParseIf(EachHasItems(depth), [OpenFor(EachOf(item, depth))] + js)
        == Some((If(EachHasItems(depth), Seq(For(EachOf(item, depth), body), Skip), otherwise), [Close] + more))
    ensures LoadsStmt(OpenLines(host, open, depth) + js, EachCode(host, open, depth, body, otherwise), more)
  {
    var (item, coll) := host.syntax.each(open.args.value).value;
    var stmt := If(EachHasItems(depth), Seq(For(EachOf(item, depth), body), Skip), otherwise);
    var js1 := [OpenFor(EachOf(item, depth))] + js;
    LoadClose(more);
    LoadIf(EachHasItems(depth), js1, stmt, [Close] + more);
    LoadStmt([OpenIf(EachHasItems(depth))] + js1, stmt, [Close] + more, Skip, [Close] + more);
    LoadPlain(ConstEach(depth, coll), [OpenIf(EachHasItems(depth))] + js1, Seq(stmt, Skip), [Close] + more);
    LoadBlock([ConstEach(depth, coll)] + ([OpenIf(EachHasItems(depth))] + js1),
      Seq(Simple(ConstEach(depth, coll)), Seq(stmt, Skip)), more);
    FourFirst(OpenBlock, ConstEach(depth, coll), OpenIf(EachHasItems(depth)), OpenFor(EachOf(item, depth)), js);
  }

  lemma FourFirst(a: Js, b: Js, c: Js, d: Js, js: seq<Js>)
    ensures [a, b, c, d] + js == [a] + ([b] + ([c] + ([d] + js)))
  {
  }

  /** The loop of an `@each`, up to the brace that ends its test. */
  lemma {:induction false} EachLoopLoads(host: Host, header: Header, body: Nodes, depth: nat, more: seq<Js>)
    requires WellFormed(host, body)
    ensures Loads([OpenFor(header)] + (EmitNodes(host, body, depth) + ([Close] + ([Close] + more))),
      Seq(For(header, CodeOf(host, body, depth, Skip)), Skip), [Close] + more)
    decreases body, 2
  {
    BodyLoads(host, body, depth, [Close] + more);
    LoadClose(more);
    LoadFor(header, EmitNodes(host, body, depth) + ([Close] + ([Close] + more)), CodeOf(host, body, depth, Skip),
      [Close] + more);
  }

  lemma {:induction false} EachLoads(host: Host, open: Token, body: Nodes, depth: nat, more: seq<Js>)
    requires EachOk(host, open) && WellFormed(host, body)
    ensures LoadsStmt((OpenLines(host, open, depth) + (EmitNodes(host, body, depth + 1) + [Close, Close, Close]))
      + more,
      EachCode(host, open, depth, CodeOf(host, body, depth + 1, Skip), Skip), more)
    decreases body, 3
  {
    var header := EachOf(host.syntax.each(open.args.value).value.0, depth);
    var inner := CodeOf(host, body, depth + 1, Skip);
    var js := EmitNodes(host, body, depth + 1) + ([Close] + ([Close] + ([Close] + more)));
    EachLoopLoads(host, header, body, depth + 1, [Close] + more);
    LoadIfOnly(EachHasItems(depth), [OpenFor(header)] + js, Seq(For(header, inner), Skip), [Close] + more);
    EachBlockLoads(host, open, depth, js, inner, Skip, more);
    EachJoin(OpenLines(host, open, depth), EmitNodes(host, body, depth + 1), more);
  }

  lemma EachJoin(lines: seq<Js>, js: seq<Js>, more: seq<Js>)
    ensures (lines + (js + [Close, Close, Close])) + more == lines + (js + ([Close] + ([Close] + ([Close] + more))))
  {
    Assoc(lines, js + [Close, Close, Close], more);
    Assoc(js, [Close, Close, Close], more);
    assert [Close, Close, Close] + more == [Close] + ([Close] + ([Close] + more));
  }

  lemma {:induction false} EachElseLoads(host: Host, node: Node, depth: nat, more: seq<Js>)
    requires node.EachElse? && NodeOk(host, node)
    ensures LoadsStmt(EmitNode(host, node, depth) + more,
      EachCode(host, node.open, depth, CodeOf(host, node.body, depth + 1, Skip),
        CodeOf(host, node.otherwise, depth + 1, Skip)),
      more)
    decreases node, 0
  {
    var EachElse(open, body, _, otherwise, _) := node;
    var js1 := EmitNodes(host, otherwise, depth + 1);
    BodyLoads(host, otherwise, depth + 1, [Close] + more);
    EachElseBlock(host, open, body, depth, js1 + ([Close] + ([Close] + more)),
      CodeOf(host, otherwise, depth + 1, Skip), more);
    EachElseJoin(OpenLines(host, open, depth), EmitNodes(host, body, depth + 1), js1, more);
  }

  /** An `@each` with an empty part `js1` that is known to load. */
  lemma {:induction false} EachElseBlock(host: Host, open: Token, body: Nodes, depth: nat, js1: seq<Js>,
      otherwise: Code,
      more: seq<Js>)
    requires EachOk(host, open) && WellFormed(host, body) && Loads(js1, otherwise, [Close] + ([Close] + more))
    ensures LoadsStmt(
      OpenLines(host, open, depth) + (EmitNodes(host, body, depth + 1) + ([Close] + ([Close] + ([OpenElse] + js1)))),
      EachCode(host, open, depth, CodeOf(host, body, depth + 1, Skip), otherwise), more)
    decreases body, 3
  {
    var header := EachOf(host.syntax.each(open.args.value).value.0, depth);
    var inner := CodeOf(host, body, depth + 1, Skip);
    var js := EmitNodes(host, body, depth + 1) + ([Close] + ([Close] + ([OpenElse] + js1)));
    EachLoopLoads(host, header, body, depth + 1, [OpenElse] + js1);
    LoadIfElse(EachHasItems(depth), [OpenFor(header)] + js, Seq(For(header, inner), Skip), js1, otherwise,
      [Close] + more);
    EachBlockLoads(host, open, depth, js, inner, otherwise, more);
  }

  lemma EachElseJoin(lines: seq<Js>, js: seq<Js>, js1: seq<Js>, more: seq<Js>)
    ensures (lines + (js + ([Close, Close, OpenElse] + (js1 + [Close, Close])))) + more
      == lines + (js + ([Close] + ([Close] + ([OpenElse] + (js1 + ([Close] + ([Close] + more)))))))
  {
    var tail := js1 + [Close, Close];
    Assoc(lines, js + ([Close, Close, OpenElse] + tail), more);
    Assoc(js, [Close, Close, OpenElse] + tail, more);
    ThreeFirst(Close, Close, OpenElse, js1, [Close, Close], more);
    assert [Close, Close] + more == [Close] + ([Close] + more);
  }

  /** The lines of a well-formed template load as its code. */
  lemma TemplateLoads(host: Host, nodes: Nodes)
    requires WellFormed(host, nodes)
    ensures Parse(EmitNodes(host, nodes, 0)) == Some(CodeOf(host, nodes, 0, Skip))
  {
    NodesLoad(host, nodes, 0, []);
    NilRight(EmitNodes(host, nodes, 0));
  }

  // ----- Running a template ----------------------------------------------------------------------------------------

  /** After a rendered stretch: its html is appended, then `next` runs, unless it threw. */
  function Continue(host: Host, rendered: Outcome<string>, next: Code, scope: Scope, out: string): Outcome<string> {
    match rendered
    case Threw(error, pool) => Threw(error, pool)
    case Done(html, pool) => RunCode(host, next, scope, out + html, pool)
  }

  /** What a stretch of html does to a scope and an output buffer. */
  function Appended(rendered: Outcome<string>, scope: Scope, out: string): Outcome<(Scope, string)> {
    match rendered
    case Threw(error, pool) => Threw(error, pool)
    case Done(html, pool) => Done((scope, out + html), pool)
  }

  lemma DirectiveRuns(host: Host, token: Token, scope: Scope, out: string, pool: Pool)
    requires token.At? && LeafOk(host, token) && !IsExtends(token) && LeafLine(host, token).Ok?
    requires LeafLine(host, token).value != [] && Plain(LeafLine(host, token).value[0])
    ensures RunSimple(host, LeafLine(host, token).value[0], scope, out, pool)
      == Appended(RenderDirective(host, token, scope.env, pool), scope, out)
  {
    NilRight(out);
  }

  /** A leaf's line appends exactly what the leaf renders. */
  lemma LeafRuns(host: Host, token: Token, scope: Scope, out: string, pool: Pool)
    requires LeafOk(host, token) && LeafJs(host, token) != [] && Plain(LeafJs(host, token)[0])
    ensures RunSimple(host, LeafJs(host, token)[0], scope, out, pool)
      == Appended(RenderLeaf(host, token, scope.env, pool), scope, out)
  {
    if token.At? {
      LeafLineOk(host, token);
      DirectiveRuns(host, token, scope, out, pool);
    }
  }

  lemma SilentLeaf(host: Host, token: Token, env: Env, pool: Pool)
    requires LeafOk(host, token) && LeafJs(host, token) == []
    ensures RenderLeaf(host, token, env, pool) == Done("", pool)
  {
    if token.At? && !IsExtends(token) {
      LeafLineOk(host, token);
    }
  }

  lemma {:induction false} NodesRun(host: Host, nodes: Nodes, depth: nat, next: Code, scope: Scope, out: string,
      pool: Pool)
    requires WellFormed(host, nodes)
    ensures RunCode(host, CodeOf(host, nodes, depth, next), scope, out, pool)
      == Continue(host, Render(host, nodes, scope.env, pool), next, scope, out)
    decreases nodes, 0
  {
    match nodes {
      case NoNodes =>
        NilRight(out);
      case Cons(head, tail) =>
        var after := CodeOf(host, tail, depth, next);
        NodeRuns(host, head, depth, after, scope, out, pool);
        var rendered := RenderNode(host, head, scope.env, pool);
        if rendered.Done? {
          NodesRun(host, tail, depth, next, scope, out + rendered.value, rendered.pool);
          var more := Render(host, tail, scope.env, rendered.pool);
          if more.Done? {
            Assoc(out, rendered.value, more.value);
          }
        }
    }
  }

  lemma {:induction false} NodeRuns(host: Host, node: Node, depth: nat, next: Code, scope: Scope, out: string,
      pool: Pool)
    requires NodeOk(host, node)
    ensures RunCode(host, NodeCode(host, node, depth, next), scope, out, pool)
      == Continue(host, RenderNode(host, node, scope.env, pool), next, scope, out)
    decreases node, 2
  {
    match node {
      case Leaf(token) => LeafNodeRuns(host, token, depth, next, scope, out, pool);
      case IfNode(open, body, rest) => IfNodeRuns(host, node, depth, next, scope, out, pool);
      case EachNode(_, _, _) => EachNodeRuns(host, node, depth, next, scope, out, pool);
      case EachElse(_, _, _, _, _) => EachNodeRuns(host, node, depth, next, scope, out, pool);
      case Wrap(open, body, _) =>
        if open.directive == AtFor {
          ForNodeRuns(host, node, depth, next, scope, out, pool);
        } else {
          CaptureRuns(host, open, body, depth, next, scope, out, pool);
        }
    }
  }

  lemma LeafNodeRuns(host: Host, token: Token, depth: nat, next: Code, scope: Scope, out: string, pool: Pool)
    requires LeafOk(host, token)
    ensures RunCode(host, NodeCode(host, Leaf(token), depth, next), scope, out, pool)
      == Continue(host, RenderLeaf(host, token, scope.env, pool), next, scope, out)
  {
    LeafJsOne(host, token);
    if LeafJs(host, token) == [] {
      SilentLeaf(host, token, scope.env, pool);
      NilRight(out);
    } else {
      LeafRuns(host, token, scope, out, pool);
    }
  }

  lemma StmtThenRest(host: Host, stmt: Stmt, rendered: Outcome<string>, next: Code, scope: Scope, out: string,
      pool: Pool)
    requires !stmt.Simple? && RunStmt(host, stmt, scope, out, pool) == Continue(host, rendered, Skip, scope, out)
    ensures RunCode(host, Seq(stmt, next), scope, out, pool) == Continue(host, rendered, next, scope, out)
  {
  }

  /** A condition, and what its two sides render. */
  function Chosen(host: Host, expr: string, env: Env, pool: Pool, yes: Outcome<string>,
      no: Outcome<string>): Outcome<string> {
    match host.eval(expr, env)
    case Err(error) => Threw(error, pool)
    case Ok(v) => if host.truthy(v) then yes else no
  }

  lemma IfRuns(host: Host, expr: string, body: Code, otherwise: Code, yes: Outcome<string>, no: Outcome<string>,
      scope: Scope, out: string, pool: Pool)
    requires RunCode(host, body, scope, out, pool) == Continue(host, yes, Skip, scope, out)
    requires RunCode(host, otherwise, scope, out, pool) == Continue(host, no, Skip, scope, out)
    ensures RunStmt(host, If(When(expr), body, otherwise), scope, out, pool)
      == Continue(host, Chosen(host, expr, scope.env, pool, yes, no), Skip, scope, out)
  {
  }

  lemma {:induction false} IfNodeRuns(host: Host, node: Node, depth: nat, next: Code, scope: Scope, out: string,
      pool: Pool)
    requires node.IfNode? && NodeOk(host, node)
    ensures RunCode(host, NodeCode(host, node, depth, next), scope, out, pool)
      == Continue(host, RenderNode(host, node, scope.env, pool), next, scope, out)
    decreases node, 0
  {
    var IfNode(open, body, rest) := node;
    var code, otherwise := CodeOf(host, body, depth + 1, Skip), TailCode(host, rest, depth);
    var yes, no := Render(host, body, scope.env, pool), RenderTail(host, rest, scope.env, pool);
    NodesRun(host, body, depth + 1, Skip, scope, out, pool);
    TailRuns(host, rest, depth, scope, out, pool);
    IfRuns(host, open.args.value, code, otherwise, yes, no, scope, out, pool);
    StmtThenRest(host, If(When(open.args.value), code, otherwise),
      Chosen(host, open.args.value, scope.env, pool, yes, no), next, scope, out, pool);
  }

  lemma {:induction false} TailRuns(host: Host, tail: IfTail, depth: nat, scope: Scope, out: string, pool: Pool)
    requires TailOk(host, tail)
    ensures RunCode(host, TailCode(host, tail, depth), scope, out, pool)
      == Continue(host, RenderTail(host, tail, scope.env, pool), Skip, scope, out)
    decreases tail, 0
  {
    match tail {
      case EndIf(_) =>
        NilRight(out);
      case ElseIf(token, body, rest) =>
        var code, otherwise := CodeOf(host, body, depth + 1, Skip), TailCode(host, rest, depth);
        var yes, no := Render(host, body, scope.env, pool), RenderTail(host, rest, scope.env, pool);
        NodesRun(host, body, depth + 1, Skip, scope, out, pool);
        TailRuns(host, rest, depth, scope, out, pool);
        IfRuns(host, token.args.value, code, otherwise, yes, no, scope, out, pool);
        LastRuns(host, If(When(token.args.value), code, otherwise), scope, out, pool);
      case Else(_, body, _) => NodesRun(host, body, depth + 1, Skip, scope, out, pool);
    }
  }

  lemma {:induction false} ForNodeRuns(host: Host, node: Node, depth: nat, next: Code, scope: Scope, out: string,
      pool: Pool)
    requires node.Wrap? && NodeOk(host, node) && node.open.directive == AtFor
    ensures RunCode(host, NodeCode(host, node, depth, next), scope, out, pool)
      == Continue(host, RenderNode(host, node, scope.env, pool), next, scope, out)
    decreases node, 0
  {
    var turns := host.bindings(node.open.args.value, scope.env);
    if turns.Ok? {
      TurnsRun(host, node.body, depth + 1, turns.value, scope, out, pool);
    }
    StmtThenRest(host, For(ForOf(node.open.args.value), CodeOf(host, node.body, depth + 1, Skip)),
      RenderNode(host, node, scope.env, pool), next, scope, out, pool);
  }

  lemma {:induction false} TurnsRun(host: Host, body: Nodes, depth: nat, turns: seq<Env>, scope: Scope, out: string,
      pool: Pool)
    requires WellFormed(host, body)
    ensures RunLoop(host, CodeOf(host, body, depth, Skip), turns, scope, out, pool)
      == Continue(host, RenderTurns(host, body, turns, scope.env, pool), Skip, scope, out)
    decreases body, 1 + |turns|
  {
    if turns == [] {
      NilRight(out);
    } else {
      var inner := scope.(env := scope.env + turns[0]);
      NodesRun(host, body, depth, Skip, inner, out, pool);
      var first := Render(host, body, inner.env, pool);
      if first.Done? {
        TurnsRun(host, body, depth, turns[1..], scope, out + first.value, first.pool);
        var more := RenderTurns(host, body, turns[1..], scope.env, first.pool);
        if more.Done? {
          Assoc(out, first.value, more.value);
        }
      }
    }
  }

  /** Rendering each value is taking the turns that bind it. */
  lemma {:induction false} EachIsTurns(host: Host, body: Nodes, item: string, values: seq<JsValue>, env: Env,
      pool: Pool)
    requires WellFormed(host, body)
    ensures RenderEach(host, body, item, values, env, pool)
      == RenderTurns(host, body, ItemBindings(item, values), env, pool)
    decreases values
  {
    if values != [] {
      assert ItemBindings(item, values)[1..] == ItemBindings(item, values[1..]);
      assert env + map[item := values[0]] == env[item := values[0]];
      var first := Render(host, body, env[item := values[0]], pool);
      if first.Done? {
        EachIsTurns(host, body, item, values[1..], env, first.pool);
      }
    }
  }

  /** `@each` with or without an empty part: what both trees render. */
  function RenderEachBlock(host: Host, open: Token, body: Nodes, otherwise: Nodes, env: Env,
      pool: Pool): Outcome<string>
    requires EachOk(host, open) && WellFormed(host, body) && WellFormed(host, otherwise)
  {
    var (item, coll) := host.syntax.each(open.args.value).value;
    match host.eval(coll, env)
    case Err(error) => Threw(error, pool)
    case Ok(v) =>
      if host.elements(v) == [] then Render(host, otherwise, env, pool)
      else RenderEach(host, body, item, host.again(v), env, pool)
  }

  /** The scope inside an `@each` block. */
  function EachScope(scope: Scope, depth: nat, v: JsValue): Scope {
    scope.(each := scope.each[depth := v])
  }

  function RunEach(host: Host, open: Token, body: Code, otherwise: Code, depth: nat, scope: Scope, out: string,
      pool: Pool)
    : Outcome<string>
    requires EachOk(host, open)
  {
    var (item, coll) := host.syntax.each(open.args.value).value;
    match host.eval(coll, scope.env)
    case Err(error) => Threw(error, pool)
    case Ok(v) =>
      if host.elements(v) == [] then RunCode(host, otherwise, EachScope(scope, depth, v), out, pool)
      else RunLoop(host, body, ItemBindings(item, host.again(v)), EachScope(scope, depth, v), out, pool)
  }

  lemma EachStart(host: Host, open: Token, body: Code, otherwise: Code, depth: nat, scope: Scope, out: string,
      pool: Pool)
    requires EachOk(host, open)
    ensures RunStmt(host, EachCode(host, open, depth, body, otherwise), scope, out, pool)
      == RunEach(host, open, body, otherwise, depth, scope, out, pool)
  {
    var (item, coll) := host.syntax.each(open.args.value).value;
    var test := If(EachHasItems(depth), Seq(For(EachOf(item, depth), body), Skip), otherwise);
    var found := host.eval(coll, scope.env);
    if found.Ok? {
      var inner := EachScope(scope, depth, found.value);
      assert RunCode(host, Seq(Simple(ConstEach(depth, coll)), Seq(test, Skip)), scope, out, pool)
        == RunCode(host, Seq(test, Skip), inner, out, pool);
      LastRuns(host, test, inner, out, pool);
      LastRuns(host, For(EachOf(item, depth), body), inner, out, pool);
    }
  }

  lemma LastRuns(host: Host, stmt: Stmt, scope: Scope, out: string, pool: Pool)
    requires !stmt.Simple?
    ensures RunCode(host, Seq(stmt, Skip), scope, out, pool) == RunStmt(host, stmt, scope, out, pool)
  {
  }

  function OtherwiseOf(node: Node): Nodes
    requires node.EachNode? || node.EachElse?
  {
    if node.EachElse? then node.otherwise else NoNodes
  }

  lemma {:induction false} EmptyPartRuns(host: Host, node: Node, depth: nat, inner: Scope, scope: Scope, out: string,
      pool: Pool)
    requires NodeOk(host, node) && (node.EachNode? || node.EachElse?)
    requires inner.env == scope.env
    ensures RunCode(host, CodeOf(host, OtherwiseOf(node), depth + 1, Skip), inner, out, pool)
      == Continue(host, Render(host, OtherwiseOf(node), scope.env, pool), Skip, inner, out)
    decreases node, 0
  {
    if node.EachElse? {
      NodesRun(host, node.otherwise, depth + 1, Skip, inner, out, pool);
    } else {
      NilRight(out);
    }
  }

  lemma {:induction false} ItemsRun(host: Host, node: Node, depth: nat, values: seq<JsValue>, inner: Scope, out: string,
      pool: Pool)
    requires NodeOk(host, node) && (node.EachNode? || node.EachElse?)
    ensures var item := host.syntax.each(node.open.args.value).value.0;
      RunLoop(host, CodeOf(host, node.body, depth + 1, Skip), ItemBindings(item, values), inner, out, pool)
        == Continue(host, RenderEach(host, node.body, item, values, inner.env, pool), Skip, inner, out)
    decreases node, 0
  {
    var item := host.syntax.each(node.open.args.value).value.0;
    TurnsRun(host, node.body, depth + 1, ItemBindings(item, values), inner, out, pool);
    EachIsTurns(host, node.body, item, values, inner.env, pool);
  }

  lemma SameContinue(host: Host, rendered: Outcome<string>, inner: Scope, scope: Scope, out: string)
    ensures Continue(host, rendered, Skip, inner, out) == Continue(host, rendered, Skip, scope, out)
  {
  }

  lemma {:induction false} EachNodeRuns(host: Host, node: Node, depth: nat, next: Code, scope: Scope, out: string,
      pool: Pool)
    requires NodeOk(host, node) && (node.EachNode? || node.EachElse?)
    ensures RunCode(host, NodeCode(host, node, depth, next), scope, out, pool)
      == Continue(host, RenderNode(host, node, scope.env, pool), next, scope, out)
    decreases node, 1
  {
    var body, otherwise := node.body, OtherwiseOf(node);
    var (item, coll) := host.syntax.each(node.open.args.value).value;
    var found := host.eval(coll, scope.env);
    if found.Ok? {
      var inner, values := EachScope(scope, depth, found.value), host.again(found.value);
      EmptyPartRuns(host, node, depth, inner, scope, out, pool);
      ItemsRun(host, node, depth, values, inner, out, pool);
      SameContinue(host, Render(host, otherwise, scope.env, pool), inner, scope, out);
      SameContinue(host, RenderEach(host, body, item, values, scope.env, pool), inner, scope, out);
    }
    EachRuns(host, node.open, body, otherwise, depth, scope, out, pool);
    EachNodeMeans(host, node, depth, next, scope.env, pool);
    StmtThenRest(host, EachCode(host, node.open, depth, CodeOf(host, body, depth + 1, Skip),
      CodeOf(host, otherwise, depth + 1, Skip)),
      RenderNode(host, node, scope.env, pool), next, scope, out, pool);
  }

  lemma EachNodeMeans(host: Host, node: Node, depth: nat, next: Code, env: Env, pool: Pool)
    requires NodeOk(host, node) && (node.EachNode? || node.EachElse?)
    ensures RenderNode(host, node, env, pool)
      == RenderEachBlock(host, node.open, node.body, OtherwiseOf(node), env, pool)
    ensures NodeCode(host, node, depth, next)
      == Seq(EachCode(host, node.open, depth, CodeOf(host, node.body, depth + 1, Skip),
          CodeOf(host, OtherwiseOf(node), depth + 1, Skip)), next)
  {
  }

  lemma EachRuns(host: Host, open: Token, body: Nodes, otherwise: Nodes, depth: nat, scope: Scope, out: string,
      pool: Pool)
    requires EachOk(host, open) && WellFormed(host, body) && WellFormed(host, otherwise)
    requires var (item, coll) := host.syntax.each(open.args.value).value;
      var found := host.eval(coll, scope.env);
      found.Ok? ==>
        (var inner, values := EachScope(scope, depth, found.value), host.again(found.value);
        && RunCode(host, CodeOf(host, otherwise, depth + 1, Skip), inner, out, pool)
          == Continue(host, Render(host, otherwise, scope.env, pool), Skip, scope, out)
        && RunLoop(host, CodeOf(host, body, depth + 1, Skip), ItemBindings(item, values), inner, out, pool)
          == Continue(host, RenderEach(host, body, item, values, scope.env, pool), Skip, scope, out))
    ensures RunStmt(host, EachCode(host, open, depth, CodeOf(host, body, depth + 1, Skip),
        CodeOf(host, otherwise, depth + 1, Skip)), scope, out, pool)
      == Continue(host, RenderEachBlock(host, open, body, otherwise, scope.env, pool), Skip, scope, out)
  {
    EachStart(host, open, CodeOf(host, body, depth + 1, Skip), CodeOf(host, otherwise, depth + 1, Skip),
      depth, scope, out, pool);
  }

  lemma CaptureStart(host: Host, inner: Code, scope: Scope, out: string, pool: Pool)
    ensures RunStmt(host, Block(Seq(Simple(ConstOuter), Seq(Simple(ClearOut), inner))), scope, out, pool)
      == RunCode(host, inner, scope.(outer := Some(out)), "", pool)
  {
    assert RunCode(host, Seq(Simple(ConstOuter), Seq(Simple(ClearOut), inner)), scope, out, pool)
      == RunCode(host, Seq(Simple(ClearOut), inner), scope.(outer := Some(out)), out, pool);
  }

  /** A captured block as a whole. */
  function RenderCapture(host: Host, open: Token, body: Nodes, env: Env, pool: Pool): Outcome<string>
    requires OpenOk(host, open) && open.directive != AtFor && WellFormed(host, body)
  {
    match Render(host, body, env, pool)
    case Threw(error, after) => Threw(error, after)
    case Done(html, after) => Captured(host, open, html, env, after)
  }

  lemma {:induction false} CaptureRuns(host: Host, open: Token, body: Nodes, depth: nat, next: Code, scope: Scope,
      out: string, pool: Pool)
    requires OpenOk(host, open) && open.directive != AtFor && WellFormed(host, body)
    ensures RunCode(host, Seq(Block(Seq(Simple(ConstOuter), Seq(Simple(ClearOut),
        CodeOf(host, body, depth + 1, EndCode(FrameOf(host, open)))))), next), scope, out, pool)
      == Continue(host, RenderCapture(host, open, body, scope.env, pool), next, scope, out)
    decreases body, 1
  {
    var inner := scope.(outer := Some(out));
    CaptureStart(host, CodeOf(host, body, depth + 1, EndCode(FrameOf(host, open))), scope, out, pool);
    NodesRun(host, body, depth + 1, EndCode(FrameOf(host, open)), inner, "", pool);
    var rendered := Render(host, body, scope.env, pool);
    if rendered.Done? {
      assert "" + rendered.value == rendered.value;
      EndRuns(host, open, inner, out, rendered.value, rendered.pool);
    }
  }

  /** A frame carries the arguments of the token that opened it. */
  lemma FrameParts(host: Host, open: Token)
    requires OpenOk(host, open) && open.directive != AtFor
    ensures FrameOf(host, open).kind == open.directive
    ensures open.directive == AtComponent ==>
      NameAndObject(host, open) == Some((FrameOf(host, open).name, FrameOf(host, open).props))
    ensures open.directive != AtComponent ==> Literal(host, open) == Some(FrameOf(host, open).name)
  {
  }

  /** What becomes of a captured body, told by its frame. */
  function Kept(host: Host, frame: Frame, html: string, env: Env, pool: Pool): Outcome<string> {
    match frame.kind
    case AtSection => Done("", SetSection(pool, frame.name, html))
    case AtPush => Done("", PushBody(pool, frame.name, html))
    case AtPrepend => Done("", PrependBody(pool, frame.name, html))
    case _ => ComponentHtml(host, frame, env, html, pool)
  }

  lemma CapturedIsKept(host: Host, open: Token, html: string, env: Env, pool: Pool)
    requires OpenOk(host, open) && open.directive != AtFor
    ensures FrameOf(host, open).kind in {AtSection, AtPush, AtPrepend, AtComponent}
    ensures Captured(host, open, html, env, pool) == Kept(host, FrameOf(host, open), html, env, pool)
  {
    FrameParts(host, open);
  }

  lemma FrameEnds(host: Host, frame: Frame, scope: Scope, out: string, html: string, pool: Pool)
    requires frame.kind in {AtSection, AtPush, AtPrepend, AtComponent} && scope.outer == Some(out)
    ensures RunCode(host, EndCode(frame), scope, html, pool)
      == Continue(host, Kept(host, frame, html, scope.env, pool), Skip, scope, out)
  {
    if frame.kind == AtComponent {
      ComponentEnds(host, frame, scope, out, html, pool);
    } else {
      StoreEnds(host, frame, scope, out, html, pool);
      NilRight(out);
    }
  }

  /** The end of a capturing block hands over what was captured and restores the output. */
  lemma EndRuns(host: Host, open: Token, scope: Scope, out: string, html: string, pool: Pool)
    requires OpenOk(host, open) && open.directive != AtFor && scope.outer == Some(out)
    ensures RunCode(host, EndCode(FrameOf(host, open)), scope, html, pool)
      == Continue(host, Captured(host, open, html, scope.env, pool), Skip, scope, out)
  {
    CapturedIsKept(host, open, html, scope.env, pool);
    FrameEnds(host, FrameOf(host, open), scope, out, html, pool);
  }

  /** What a component tag appends once its body is captured. */
  function ComponentHtml(host: Host, frame: Frame, env: Env, html: string, pool: Pool): Outcome<string> {
    match host.eval(frame.props, env)
    case Err(error) => Threw(error, pool)
    case Ok(v) => host.renderComponent(frame.name, v, html, pool)
  }

  lemma ComponentEnds(host: Host, frame: Frame, scope: Scope, out: string, html: string, pool: Pool)
    requires frame.kind == AtComponent && scope.outer == Some(out)
    ensures RunCode(host, EndCode(frame), scope, html, pool)
      == Continue(host, ComponentHtml(host, frame, scope.env, html, pool), Skip, scope, out)
  {
    var last := Seq(Simple(Append(ComponentCall(frame.name, frame.props))), Skip);
    var slotted := scope.(slot := Some(html));
    assert RunCode(host, EndCode(frame), scope, html, pool)
      == RunCode(host, Seq(Simple(RestoreOut), last), slotted, html, pool);
    assert RunCode(host, Seq(Simple(RestoreOut), last), slotted, html, pool) == RunCode(host, last, slotted, out, pool);
    AppendRuns(host, ComponentCall(frame.name, frame.props), slotted, out, pool);
  }

  lemma AppendRuns(host: Host, piece: Piece, scope: Scope, out: string, pool: Pool)
    ensures RunCode(host, Seq(Simple(Append(piece)), Skip), scope, out, pool)
      == Continue(host, PieceText(host, piece, scope, pool), Skip, scope, out)
  {
  }

  /** A store call on the captured text, then the old output again. */
  lemma CallThenRestore(host: Host, call: Js, scope: Scope, out: string, html: string, pool: Pool, after: Pool)
    requires Plain(call) && RunSimple(host, call, scope, html, pool) == Done((scope, html), after)
    requires scope.outer == Some(out)
    ensures RunCode(host, Seq(Simple(call), Seq(Simple(RestoreOut), Skip)), scope, html, pool) == Done(out, after)
  {
    assert RunCode(host, Seq(Simple(RestoreOut), Skip), scope, html, after) == Done(out, after);
  }

  lemma StoreEnds(host: Host, frame: Frame, scope: Scope, out: string, html: string, pool: Pool)
    requires frame.kind in {AtSection, AtPush, AtPrepend} && scope.outer == Some(out)
    ensures RunCode(host, EndCode(frame), scope, html, pool)
      == Done(out,
        if frame.kind == AtSection then SetSection(pool, frame.name, html)
        else if frame.kind == AtPush then PushBody(pool, frame.name, html)
        else PrependBody(pool, frame.name, html))
  {
    if frame.kind == AtSection {
      CallThenRestore(host, CallSection(frame.name), scope, out, html, pool, SetSection(pool, frame.name, html));
    } else if frame.kind == AtPush {
      CallThenRestore(host, CallPush(frame.name), scope, out, html, pool, PushBody(pool, frame.name, html));
    } else {
      CallThenRestore(host, CallPrepend(frame.name), scope, out, html, pool, PrependBody(pool, frame.name, html));
    }
  }

  // ----- The compiler is correct -------------------------------------------------------------------------------------

  /** What calling a compiled template gives, from a new output buffer. */
  function RunCompiled(host: Host, compiled: Compiled, env: Env, pool: Pool): Outcome<string> {
    RunCode(host, compiled.code, TOP_SCOPE.(env := env), "", pool)
  }

  /** Compiler correctness. The tokens of a well-formed template with at most one `@extends`
      compile, the layout is that `@extends` target, and running the result gives the html, the
      sections, the stacks and the error of rendering the tree itself, whatever the data. */
  lemma CompilerIsCorrect(host: Host, nodes: Nodes, env: Env, pool: Pool)
    requires WellFormed(host, nodes) && |Extended(host, Tokens(nodes))| <= 1
    ensures var compilation := Compilation(host, Tokens(nodes));
      && compilation.Ok?
      && compilation.value.layout == LayoutAfter(None, Extended(host, Tokens(nodes)))
      && RunCompiled(host, compilation.value, env, pool) == Render(host, nodes, env, pool)
  {
    TemplateEmits(host, nodes);
    TemplateLoads(host, nodes);
    NodesRun(host, nodes, 0, Skip, TOP_SCOPE.(env := env), "", pool);
    var rendered := Render(host, nodes, env, pool);
    if rendered.Done? {
      assert "" + rendered.value == rendered.value;
    }
  }
}
