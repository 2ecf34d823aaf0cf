/** Compiling the tokens of a well-formed template succeeds, and running what it emits renders
    the template. */
module CompilerCorrect {
  import opened Prelude
  import opened ViewText
  import opened ViewHost
  import opened Template
  import opened EmittedJs
  import opened Compiler

  // ----- What a template compiles to --------------------------------------------------------------------------

  predicate IsExtends(token: Token) {
    Is(token, AtExtends)
  }

  function LeafJs(host: Host, token: Token): seq<Js> {
    if !token.At? then TextLine(token)
    else if IsExtends(token) then []
    else match LeafLine(host, token) case Ok(js) => js case Err(_) => []
  }

  predicate Opener(host: Host, open: Token) {
    (Is(open, AtIf) && HasArgs(host, open.args)) || EachOk(host, open) || OpenOk(host, open)
  }

  function FrameOf(host: Host, open: Token): (frame: Frame)
    requires Opener(host, open)
    ensures frame.kind == open.directive && !frame.hasEmpty
  {
    OpenFrame(host, open).value
  }

  function EmitNodes(host: Host, nodes: Nodes, depth: nat): seq<Js>
    requires WellFormed(host, nodes)
  {
    match nodes
    case NoNodes => []
    case Cons(head, tail) => EmitNode(host, head, depth) + EmitNodes(host, tail, depth)
  }

  function EmitNode(host: Host, node: Node, depth: nat): seq<Js>
    requires NodeOk(host, node)
  {
    match node
    case Leaf(token) => LeafJs(host, token)
    case IfNode(open, body, rest) =>
      [OpenIf(When(open.args.value))] + (EmitNodes(host, body, depth + 1) + EmitTail(host, rest, depth))
    case EachNode(open, body, _) =>
      OpenLines(host, open, depth) + (EmitNodes(host, body, depth + 1) + [Close, Close, Close])
    case EachElse(open, body, _, otherwise, _) =>
      OpenLines(host, open, depth)
      + (EmitNodes(host, body, depth + 1) + ([Close, Close, OpenElse]
        + (EmitNodes(host, otherwise, depth + 1) + [Close, Close])))
    case Wrap(open, body, _) =>
      OpenLines(host, open, depth) + (EmitNodes(host, body, depth + 1) + CloseLines(FrameOf(host, open)))
  }

  function EmitTail(host: Host, tail: IfTail, depth: nat): seq<Js>
    requires TailOk(host, tail)
  {
    match tail
    case EndIf(_) => [Close]
    case ElseIf(token, body, rest) =>
      [Close, OpenElseIf(When(token.args.value))] + (EmitNodes(host, body, depth + 1) + EmitTail(host, rest, depth))
    case Else(_, body, _) => [Close, OpenElse] + (EmitNodes(host, body, depth + 1) + [Close])
  }

  /** `step` is the compiler's. Stated so that `Step` is looked into only where it is mentioned. */
  ghost predicate Follows(step: Stepper, host: Host) {
    forall st: Progress, token: Token {:trigger Step(host, st, token)} :: step(st, token) == Step(host, st, token)
  }

  // ----- The pass accepts it ------------------------------------------------------------------------------------

  lemma {:induction false} StepsAppend(step: Stepper, host: Host, st: Progress, a: seq<Token>, b: seq<Token>)
    requires StepsBy(step, st, a).Ok?
    ensures StepsBy(step, st, a + b) == StepsBy(step, StepsBy(step, st, a).value, b)
    decreases a
  {
    if a == [] {
      assert a + b == b;
    } else {
      assert (a + b)[0] == a[0] && (a + b)[1..] == a[1..] + b;
      StepsAppend(step, host, step(st, a[0]).value, a[1..], b);
    }
  }

  lemma StepsOne(step: Stepper, host: Host, st: Progress, token: Token)
    ensures StepsBy(step, st, [token]) == step(st, token)
  {
    assert [token][1..] == [];
  }

  lemma {:induction false} ExtendedAppend(host: Host, a: seq<Token>, b: seq<Token>)
    ensures Extended(host, a + b) == Extended(host, a) + Extended(host, b)
  {
    if a == [] {
      assert a + b == b;
    } else {
      assert (a + b)[0] == a[0] && (a + b)[1..] == a[1..] + b;
      ExtendedAppend(host, a[1..], b);
      Assoc(Extends(host, a[0]), Extended(host, a[1..]), Extended(host, b));
    }
  }

  /** The layout after a stretch of tokens with these `@extends` targets. */
  function LayoutAfter(layout: Option<string>, targets: seq<string>): Option<string> {
    if targets == [] then layout else Some(targets[|targets| - 1])
  }

  predicate OneLayout(layout: Option<string>, targets: seq<string>) {
    (if layout.Some? then 1 else 0) + |targets| <= 1
  }

  function Past(host: Host, st: Progress, js: seq<Js>, tokens: seq<Token>): Progress {
    Progress(st.js + js, LayoutAfter(st.layout, Extended(host, tokens)), st.stack)
  }

  lemma LeafLineOk(host: Host, token: Token)
    requires token.At? && LeafOk(host, token) && !IsExtends(token)
    ensures LeafLine(host, token).Ok?
  {
  }

  lemma LeafIsSingle(host: Host, token: Token, st: Progress)
    requires LeafOk(host, token)
    ensures Step(host, st, token) == Single(host, st, token)
  {
  }

  lemma ExtendsSteps(host: Host, token: Token, st: Progress)
    requires LeafOk(host, token) && IsExtends(token) && st.layout.None?
    ensures Single(host, st, token) == Ok(st.(layout := Literal(host, token)))
  {
  }

  lemma LeafSteps(step: Stepper, host: Host, token: Token, st: Progress)
    requires Follows(step, host)
    requires LeafOk(host, token) && OneLayout(st.layout, Extended(host, [token]))
    ensures step(st, token) == Ok(Past(host, st, LeafJs(host, token), [token]))
  {
    LeafIsSingle(host, token, st);
    assert [token][1..] == [];
    assert Extended(host, [token]) == Extends(host, token);
    if IsExtends(token) {
      ExtendsSteps(host, token, st);
      NilRight(st.js);
    } else if token.At? {
      LeafLineOk(host, token);
    }
  }

  function Opened(host: Host, st: Progress, open: Token): Progress
    requires Opener(host, open)
  {
    Progress(st.js + OpenLines(host, open, |st.stack|), st.layout, st.stack + [FrameOf(host, open)])
  }

  lemma OpenSteps(step: Stepper, host: Host, open: Token, st: Progress)
    requires Follows(step, host)
    requires Opener(host, open)
    ensures step(st, open) == Ok(Opened(host, st, open))
  {
    assert step(st, open) == Step(host, st, open);
  }

  lemma CloseSteps(step: Stepper, host: Host, close: Token, st: Progress, frame: Frame, below: seq<Frame>)
    requires Follows(step, host)
    requires close.At? && Ends(close.directive) == Some(frame.kind)
    requires st.stack == below + [frame]
    ensures step(st, close) == Ok(Progress(st.js + CloseLines(frame), st.layout, below))
  {
    assert step(st, close) == Step(host, st, close);
    assert st.stack[..|st.stack| - 1] == below;
  }

  /** A closing token names no layout, and an opening one neither. */
  lemma NoLayout(host: Host, token: Token)
    requires !IsExtends(token)
    ensures Extended(host, [token]) == []
  {
    assert [token][1..] == [];
  }

  lemma LayoutCat(layout: Option<string>, x: seq<string>, y: seq<string>)
    requires OneLayout(layout, x + y)
    ensures OneLayout(layout, x) && OneLayout(LayoutAfter(layout, x), y)
    ensures LayoutAfter(LayoutAfter(layout, x), y) == LayoutAfter(layout, x + y)
  {
    if y == [] {
      NilRight(x);
    }
  }

  /** From `st` the tokens emit `js`, thread the layout through and leave the open blocks alone. */
  predicate Emits(step: Stepper, host: Host, st: Progress, tokens: seq<Token>, js: seq<Js>) {
    StepsBy(step, st, tokens) == Ok(Past(host, st, js, tokens))
  }

  /** The same for tokens that also close the innermost block. */
  predicate EmitsAndCloses(step: Stepper, host: Host, st: Progress, tokens: seq<Token>, js: seq<Js>) {
    st.stack != [] && StepsBy(step, st, tokens) == Ok(Past(host, st, js, tokens).(stack := st.stack[..|st.stack| - 1]))
  }

  predicate LayoutFits(host: Host, st: Progress, tokens: seq<Token>) {
    OneLayout(st.layout, Extended(host, tokens))
  }

  lemma FitsSplit(host: Host, st: Progress, a: seq<Token>, b: seq<Token>, js: seq<Js>)
    requires LayoutFits(host, st, a + b)
    ensures LayoutFits(host, st, a) && LayoutFits(host, Past(host, st, js, a), b)
  {
    ExtendedAppend(host, a, b);
    LayoutCat(st.layout, Extended(host, a), Extended(host, b));
  }

  lemma PastCat(host: Host, st: Progress, a: seq<Token>, ja: seq<Js>, b: seq<Token>, jb: seq<Js>)
    requires LayoutFits(host, st, a + b)
    ensures Past(host, Past(host, st, ja, a), jb, b) == Past(host, st, ja + jb, a + b)
  {
    ExtendedAppend(host, a, b);
    LayoutCat(st.layout, Extended(host, a), Extended(host, b));
    Assoc(st.js, ja, jb);
  }

  lemma EmitsCat(step: Stepper, host: Host, st: Progress, a: seq<Token>, ja: seq<Js>, b: seq<Token>, jb: seq<Js>)
    requires LayoutFits(host, st, a + b)
    requires Emits(step, host, st, a, ja) && Emits(step, host, Past(host, st, ja, a), b, jb)
    ensures Emits(step, host, st, a + b, ja + jb)
  {
    StepsAppend(step, host, st, a, b);
    PastCat(host, st, a, ja, b, jb);
  }

  lemma EmitsThenCloses(step: Stepper, host: Host, st: Progress, a: seq<Token>, ja: seq<Js>, b: seq<Token>, jb: seq<Js>)
    requires LayoutFits(host, st, a + b)
    requires Emits(step, host, st, a, ja) && EmitsAndCloses(step, host, Past(host, st, ja, a), b, jb)
    ensures EmitsAndCloses(step, host, st, a + b, ja + jb)
  {
    StepsAppend(step, host, st, a, b);
    PastCat(host, st, a, ja, b, jb);
  }

  /** An opening token, then tokens that end by closing its block. */
  lemma OpenThenCloses(step: Stepper, host: Host, st: Progress, open: Token, rest: seq<Token>, js: seq<Js>)
    requires Follows(step, host)
    requires Opener(host, open) && LayoutFits(host, st, [open] + rest)
    requires EmitsAndCloses(step, host, Opened(host, st, open), rest, js)
    ensures Emits(step, host, st, [open] + rest, OpenLines(host, open, |st.stack|) + js)
  {
    OpenSteps(step, host, open, st);
    StepsOne(step, host, st, open);
    StepsAppend(step, host, st, [open], rest);
    NoLayout(host, open);
    ExtendedAppend(host, [open], rest);
    assert Opened(host, st, open).stack[..|st.stack|] == st.stack;
    Assoc(st.js, OpenLines(host, open, |st.stack|), js);
  }

  lemma OpenFits(host: Host, st: Progress, open: Token, rest: seq<Token>)
    requires Opener(host, open) && LayoutFits(host, st, [open] + rest)
    ensures LayoutFits(host, Opened(host, st, open), rest)
  {
    NoLayout(host, open);
    ExtendedAppend(host, [open], rest);
  }

  lemma CloseEmits(step: Stepper, host: Host, st: Progress, close: Token)
    requires Follows(step, host)
    requires st.stack != [] && close.At? && Ends(close.directive) == Some(st.stack[|st.stack| - 1].kind)
    ensures EmitsAndCloses(step, host, st, [close], CloseLines(st.stack[|st.stack| - 1]))
  {
    var below := st.stack[..|st.stack| - 1];
    assert st.stack == below + [st.stack[|st.stack| - 1]];
    CloseSteps(step, host, close, st, st.stack[|st.stack| - 1], below);
    StepsOne(step, host, st, close);
    NoLayout(host, close);
  }

  lemma OpenedCloses(step: Stepper, host: Host, st: Progress, open: Token, tokens: seq<Token>, js: seq<Js>,
      close: Token)
    requires Follows(step, host)
    requires Opener(host, open) && close.At? && Ends(close.directive) == Some(open.directive)
    ensures EmitsAndCloses(step, host, Past(host, Opened(host, st, open), js, tokens), [close],
      CloseLines(FrameOf(host, open)))
  {
    CloseEmits(step, host, Past(host, Opened(host, st, open), js, tokens), close);
  }

  lemma {:induction false} NodesEmit(step: Stepper, host: Host, nodes: Nodes, st: Progress)
    requires Follows(step, host)
    requires WellFormed(host, nodes) && LayoutFits(host, st, Tokens(nodes))
    ensures Emits(step, host, st, Tokens(nodes), EmitNodes(host, nodes, |st.stack|))
    decreases nodes, 0
  {
    match nodes {
      case NoNodes =>
        NilRight(st.js);
      case Cons(head, tail) =>
        var js := EmitNode(host, head, |st.stack|);
        FitsSplit(host, st, NodeTokens(head), Tokens(tail), js);
        NodeEmits(step, host, head, st);
        NodesEmit(step, host, tail, Past(host, st, js, NodeTokens(head)));
        EmitsCat(step, host, st, NodeTokens(head), js, Tokens(tail), EmitNodes(host, tail, |st.stack|));
    }
  }

  lemma {:induction false} NodeEmits(step: Stepper, host: Host, node: Node, st: Progress)
    requires Follows(step, host)
    requires NodeOk(host, node) && LayoutFits(host, st, NodeTokens(node))
    ensures Emits(step, host, st, NodeTokens(node), EmitNode(host, node, |st.stack|))
    decreases node, 2
  {
    match node {
      case Leaf(token) =>
        LeafSteps(step, host, token, st);
        StepsOne(step, host, st, token);
      case IfNode(open, body, rest) => IfEmits(step, host, open, body, rest, st);
      case EachNode(open, body, close) => WrapEmits(step, host, open, body, close, st);
      case EachElse(open, body, empty, otherwise, close) => EachElseEmits(step, host, node, st);
      case Wrap(open, body, close) => WrapEmits(step, host, open, body, close, st);
    }
  }

  /** The pass inside a block, after its body. */
  function AfterBody(host: Host, st: Progress, open: Token, body: Nodes): Progress
    requires Opener(host, open) && WellFormed(host, body)
  {
    Past(host, Opened(host, st, open), EmitNodes(host, body, |st.stack| + 1), Tokens(body))
  }

  lemma BodyFits(host: Host, st: Progress, open: Token, body: Nodes, rest: seq<Token>)
    requires Opener(host, open) && WellFormed(host, body) && LayoutFits(host, st, [open] + (Tokens(body) + rest))
    ensures LayoutFits(host, Opened(host, st, open), Tokens(body) + rest)
    ensures LayoutFits(host, Opened(host, st, open), Tokens(body))
    ensures LayoutFits(host, AfterBody(host, st, open, body), rest)
  {
    OpenFits(host, st, open, Tokens(body) + rest);
    FitsSplit(host, Opened(host, st, open), Tokens(body), rest, EmitNodes(host, body, |st.stack| + 1));
  }

  /** An opening token, a body and what closes the block. */
  lemma {:induction false} BlockEmits(step: Stepper, host: Host, st: Progress, open: Token, body: Nodes,
      rest: seq<Token>, js: seq<Js>)
    requires Follows(step, host)
    requires Opener(host, open) && WellFormed(host, body) && LayoutFits(host, st, [open] + (Tokens(body) + rest))
    requires EmitsAndCloses(step, host, AfterBody(host, st, open, body), rest, js)
    ensures Emits(step, host, st, [open] + (Tokens(body) + rest),
      OpenLines(host, open, |st.stack|) + (EmitNodes(host, body, |st.stack| + 1) + js))
    decreases body, 1
  {
    var inner, own := Opened(host, st, open), EmitNodes(host, body, |st.stack| + 1);
    BodyFits(host, st, open, body, rest);
    NodesEmit(step, host, body, inner);
    EmitsThenCloses(step, host, inner, Tokens(body), own, rest, js);
    OpenThenCloses(step, host, st, open, Tokens(body) + rest, own + js);
  }

  /** A body and the token that closes its block. */
  lemma {:induction false} WrapEmits(step: Stepper, host: Host, open: Token, body: Nodes, close: Token, st: Progress)
    requires Follows(step, host)
    requires Opener(host, open) && WellFormed(host, body) && close.At? && Ends(close.directive) == Some(open.directive)
    requires LayoutFits(host, st, [open] + Tokens(body) + [close])
    ensures Emits(step, host, st, [open] + Tokens(body) + [close],
      OpenLines(host, open, |st.stack|) + (EmitNodes(host, body, |st.stack| + 1) + CloseLines(FrameOf(host, open))))
    decreases body, 2
  {
    Assoc([open], Tokens(body), [close]);
    OpenedCloses(step, host, st, open, Tokens(body), EmitNodes(host, body, |st.stack| + 1), close);
    BlockEmits(step, host, st, open, body, [close], CloseLines(FrameOf(host, open)));
  }

  lemma {:induction false} IfEmits(step: Stepper, host: Host, open: Token, body: Nodes, rest: IfTail, st: Progress)
    requires Follows(step, host)
    requires Is(open, AtIf) && HasArgs(host, open.args) && WellFormed(host, body) && TailOk(host, rest)
    requires LayoutFits(host, st, [open] + Tokens(body) + TailTokens(rest))
    ensures Emits(step, host, st, [open] + Tokens(body) + TailTokens(rest),
      [OpenIf(When(open.args.value))] + (EmitNodes(host, body, |st.stack| + 1) + EmitTail(host, rest, |st.stack|)))
    decreases IfNode(open, body, rest), 0
  {
    Assoc([open], Tokens(body), TailTokens(rest));
    BodyFits(host, st, open, body, TailTokens(rest));
    TailEmits(step, host, rest, AfterBody(host, st, open, body));
    BlockEmits(step, host, st, open, body, TailTokens(rest), EmitTail(host, rest, |st.stack|));
  }

  lemma {:induction false} TailEmits(step: Stepper, host: Host, tail: IfTail, st: Progress)
    requires Follows(step, host)
    requires TailOk(host, tail) && LayoutFits(host, st, TailTokens(tail))
    requires TopIs(st.stack, AtIf)
    ensures EmitsAndCloses(step, host, st, TailTokens(tail), EmitTail(host, tail, |st.stack| - 1))
    decreases tail, 1
  {
    match tail {
      case EndIf(close) => CloseEmits(step, host, st, close);
      case ElseIf(token, body, rest) => ElseIfEmits(step, host, token, body, rest, st);
      case Else(token, body, close) => ElseEmits(step, host, token, body, close, st);
    }
  }

  lemma {:induction false} ElseIfEmits(step: Stepper, host: Host, token: Token, body: Nodes, rest: IfTail, st: Progress)
    requires Follows(step, host) && IsMiddle(host, token) && WellFormed(host, body) && TailOk(host, rest)
    requires LayoutFits(host, st, [token] + Tokens(body) + TailTokens(rest)) && TopIs(st.stack, AtIf)
    ensures EmitsAndCloses(step, host, st, [token] + Tokens(body) + TailTokens(rest),
      MiddleLines(host, token) + (EmitNodes(host, body, |st.stack|) + EmitTail(host, rest, |st.stack| - 1)))
    decreases ElseIf(token, body, rest), 0
  {
    MiddleFits(host, st, token, body, TailTokens(rest));
    TailEmits(step, host, rest, AfterMiddle(host, st, token, body));
    MiddleEmits(step, host, st, token, body, TailTokens(rest), EmitTail(host, rest, |st.stack| - 1));
  }

  lemma {:induction false} ElseEmits(step: Stepper, host: Host, token: Token, body: Nodes, close: Token, st: Progress)
    requires Follows(step, host) && IsMiddle(host, token) && WellFormed(host, body) && Is(close, AtEndIf)
    requires LayoutFits(host, st, [token] + Tokens(body) + [close]) && TopIs(st.stack, AtIf)
    ensures EmitsAndCloses(step, host, st, [token] + Tokens(body) + [close],
      MiddleLines(host, token) + (EmitNodes(host, body, |st.stack|) + [Close]))
    decreases body, 2
  {
    MiddleFits(host, st, token, body, [close]);
    CloseEmits(step, host, AfterMiddle(host, st, token, body), close);
    MiddleEmits(step, host, st, token, body, [close], [Close]);
  }

  predicate IsMiddle(host: Host, token: Token) {
    Is(token, AtElse) || (Is(token, AtElseIf) && HasArgs(host, token.args))
  }

  function MiddleLines(host: Host, token: Token): seq<Js>
    requires IsMiddle(host, token)
  {
    if token.directive == AtElse then [Close, OpenElse] else [Close, OpenElseIf(When(token.args.value))]
  }

  lemma MiddleSteps(step: Stepper, host: Host, st: Progress, token: Token)
    requires Follows(step, host)
    requires TopIs(st.stack, AtIf) && IsMiddle(host, token)
    ensures Emits(step, host, st, [token], MiddleLines(host, token))
  {
    assert step(st, token) == Step(host, st, token);
    StepsOne(step, host, st, token);
    NoLayout(host, token);
  }

  /** The pass after `@elseif` or `@else` and the body under it. */
  function AfterMiddle(host: Host, st: Progress, token: Token, body: Nodes): Progress
    requires WellFormed(host, body) && IsMiddle(host, token)
  {
    Past(host, Past(host, st, MiddleLines(host, token), [token]), EmitNodes(host, body, |st.stack|), Tokens(body))
  }

  lemma MiddleFits(host: Host, st: Progress, token: Token, body: Nodes, rest: seq<Token>)
    requires WellFormed(host, body) && IsMiddle(host, token) && LayoutFits(host, st, [token] + Tokens(body) + rest)
    ensures LayoutFits(host, st, [token] + Tokens(body))
    ensures LayoutFits(host, Past(host, st, MiddleLines(host, token), [token]), Tokens(body))
    ensures LayoutFits(host, AfterMiddle(host, st, token, body), rest)
    ensures Past(host, st, MiddleLines(host, token) + EmitNodes(host, body, |st.stack|), [token] + Tokens(body))
      == AfterMiddle(host, st, token, body)
  {
    var lines, js := MiddleLines(host, token), EmitNodes(host, body, |st.stack|);
    FitsSplit(host, st, [token] + Tokens(body), rest, lines + js);
    FitsSplit(host, st, [token], Tokens(body), lines);
    PastCat(host, st, [token], lines, Tokens(body), js);
  }

  /** `@elseif` or `@else`, the body under it and what closes the block. */
  lemma {:induction false} MiddleEmits(step: Stepper, host: Host, st: Progress, token: Token, body: Nodes,
      rest: seq<Token>, js: seq<Js>)
    requires Follows(step, host)
    requires TopIs(st.stack, AtIf) && WellFormed(host, body) && IsMiddle(host, token)
    requires LayoutFits(host, st, [token] + Tokens(body) + rest)
    requires EmitsAndCloses(step, host, AfterMiddle(host, st, token, body), rest, js)
    ensures EmitsAndCloses(step, host, st, [token] + Tokens(body) + rest,
      MiddleLines(host, token) + (EmitNodes(host, body, |st.stack|) + js))
    decreases body, 1
  {
    var lines, own := MiddleLines(host, token), EmitNodes(host, body, |st.stack|);
    MiddleFits(host, st, token, body, rest);
    MiddleSteps(step, host, st, token);
    NodesEmit(step, host, body, Past(host, st, lines, [token]));
    EmitsCat(step, host, st, [token], lines, Tokens(body), own);
    EmitsThenCloses(step, host, st, [token] + Tokens(body), lines + own, rest, js);
    Assoc(lines, own, js);
  }

  /** The pass after `@empty`. */
  function Emptied(st: Progress): Progress
    requires TopIs(st.stack, AtEach)
  {
    var top := |st.stack| - 1;
    Progress(st.js + [Close, Close, OpenElse], st.layout, st.stack[top := st.stack[top].(hasEmpty := true)])
  }

  lemma EmptySteps(step: Stepper, host: Host, st: Progress, empty: Token, rest: seq<Token>, js: seq<Js>)
    requires Follows(step, host)
    requires TopIs(st.stack, AtEach) && Is(empty, AtEmpty) && EmitsAndCloses(step, host, Emptied(st), rest, js)
    ensures EmitsAndCloses(step, host, st, [empty] + rest, [Close, Close, OpenElse] + js)
  {
    StepsOne(step, host, st, empty);
    assert Step(host, st, empty) == Ok(Emptied(st));
    StepsAppend(step, host, st, [empty], rest);
    NoLayout(host, empty);
    ExtendedAppend(host, [empty], rest);
    Assoc(st.js, [Close, Close, OpenElse], js);
    assert Emptied(st).stack[..|st.stack| - 1] == st.stack[..|st.stack| - 1];
  }

  lemma {:induction false} ElseCloses(step: Stepper, host: Host, st: Progress, empty: Token, otherwise: Nodes,
      close: Token)
    requires Follows(step, host)
    requires TopIs(st.stack, AtEach) && Is(empty, AtEmpty) && WellFormed(host, otherwise) && Is(close, AtEndEach)
    requires LayoutFits(host, st, [empty] + (Tokens(otherwise) + [close]))
    ensures EmitsAndCloses(step, host, st, [empty] + (Tokens(otherwise) + [close]),
      [Close, Close, OpenElse] + (EmitNodes(host, otherwise, |st.stack|) + [Close, Close]))
    decreases otherwise, 1
  {
    var st1, js := Emptied(st), EmitNodes(host, otherwise, |st.stack|);
    NoLayout(host, empty);
    ExtendedAppend(host, [empty], Tokens(otherwise) + [close]);
    FitsSplit(host, st1, Tokens(otherwise), [close], js);
    NodesEmit(step, host, otherwise, st1);
    CloseEmits(step, host, Past(host, st1, js, Tokens(otherwise)), close);
    EmitsThenCloses(step, host, st1, Tokens(otherwise), js, [close], [Close, Close]);
    EmptySteps(step, host, st, empty, Tokens(otherwise) + [close], js + [Close, Close]);
  }

  lemma {:induction false} EachElseEmits(step: Stepper, host: Host, node: Node, st: Progress)
    requires Follows(step, host)
    requires node.EachElse? && NodeOk(host, node) && LayoutFits(host, st, NodeTokens(node))
    ensures Emits(step, host, st, NodeTokens(node), EmitNode(host, node, |st.stack|))
    decreases node, 1
  {
    EachElseTokens(node);
    EachParts(step, host, node.open, node.body, node.empty, node.otherwise, node.close, st);
  }

  lemma {:induction false} EachParts(step: Stepper, host: Host, open: Token, body: Nodes, empty: Token,
      otherwise: Nodes,
      close: Token, st: Progress)
    requires Follows(step, host) && EachOk(host, open) && WellFormed(host, body) && Is(empty, AtEmpty)
    requires WellFormed(host, otherwise) && Is(close, AtEndEach)
    requires LayoutFits(host, st, [open] + (Tokens(body) + ([empty] + (Tokens(otherwise) + [close]))))
    ensures Emits(step, host, st, [open] + (Tokens(body) + ([empty] + (Tokens(otherwise) + [close]))),
      OpenLines(host, open, |st.stack|) + (EmitNodes(host, body, |st.stack| + 1)
        + ([Close, Close, OpenElse] + (EmitNodes(host, otherwise, |st.stack| + 1) + [Close, Close]))))
    decreases EachElse(open, body, empty, otherwise, close), 0
  {
    var rest := [empty] + (Tokens(otherwise) + [close]);
    BodyFits(host, st, open, body, rest);
    ElseCloses(step, host, AfterBody(host, st, open, body), empty, otherwise, close);
    BlockEmits(step, host, st, open, body, rest,
      [Close, Close, OpenElse] + (EmitNodes(host, otherwise, |st.stack| + 1) + [Close, Close]));
  }

  lemma EachElseTokens(node: Node)
    requires node.EachElse?
    ensures NodeTokens(node)
      == [node.open] + (Tokens(node.body) + ([node.empty] + (Tokens(node.otherwise) + [node.close])))
  {
    Assoc([node.open] + Tokens(node.body) + [node.empty], Tokens(node.otherwise), [node.close]);
    Assoc([node.open] + Tokens(node.body), [node.empty], Tokens(node.otherwise) + [node.close]);
    Assoc([node.open], Tokens(node.body), [node.empty] + (Tokens(node.otherwise) + [node.close]));
  }

  /** The pass over a whole well-formed template. */
  lemma TemplateEmits(host: Host, nodes: Nodes)
    requires WellFormed(host, nodes) && |Extended(host, Tokens(nodes))| <= 1
    ensures Steps(host, START, Tokens(nodes))
      == Ok(Progress(EmitNodes(host, nodes, 0), LayoutAfter(None, Extended(host, Tokens(nodes))), []))
  {
    NodesEmit(StepOf(host), host, nodes, START);
    assert [] + EmitNodes(host, nodes, 0) == EmitNodes(host, nodes, 0);
  }
}
