/** Whatever the compiler accepts is the written form of a well-formed template. */
module CompilerComplete {
  import opened Prelude
  import opened ViewText
  import opened ViewHost
  import opened Template
  import opened EmittedJs
  import opened Compiler
  import opened CompilerCorrect
  import opened CompilerRuns

  // ----- What the pass still has to emit -----------------------------------------------------------------------

  predicate Accepted(host: Host, st: Progress, tokens: seq<Token>) {
    Steps(host, st, tokens).Ok? && Steps(host, st, tokens).value.stack == []
  }

  /** The lines emitted from here to the end. */
  function Rest(host: Host, st: Progress, tokens: seq<Token>): seq<Js>
    requires Steps(host, st, tokens).Ok?
  {
    var end := Steps(host, st, tokens).value.js;
    if |st.js| <= |end| then end[|st.js|..] else []
  }

  /** What one token emits never starts with `else`. */
  lemma StepGrows(host: Host, st: Progress, token: Token)
    requires Step(host, st, token).Ok?
    ensures var js := Step(host, st, token).value.js;
      st.js <= js && NoElse(js[|st.js|..])
  {
    if !token.At? {
    } else if IsOpener(token.directive) {
      OpenLinesFirst(host, st, token);
    } else if token.directive in {AtElseIf, AtElse, AtEmpty} {
    } else if Ends(token.directive).Some? {
      CloseLinesFirst(st.stack[|st.stack| - 1]);
    } else if token.directive != AtExtends {
      LeafLineFirst(host, token);
    }
  }

  lemma OpenLinesFirst(host: Host, st: Progress, token: Token)
    requires token.At? && IsOpener(token.directive) && Opening(host, st, token).Ok?
    ensures NoElse(OpenLines(host, token, |st.stack|))
  {
  }

  lemma CloseLinesFirst(frame: Frame)
    ensures NoElse(CloseLines(frame))
  {
  }

  lemma LeafLineFirst(host: Host, token: Token)
    requires token.At? && LeafLine(host, token).Ok?
    ensures NoElse(LeafLine(host, token).value)
  {
  }

  lemma {:induction false} StepsGrow(host: Host, st: Progress, tokens: seq<Token>)
    requires Steps(host, st, tokens).Ok?
    ensures st.js <= Steps(host, st, tokens).value.js && NoElse(Rest(host, st, tokens))
    decreases tokens
  {
    if tokens != [] {
      var next := Step(host, st, tokens[0]).value;
      StepGrows(host, st, tokens[0]);
      StepsGrow(host, next, tokens[1..]);
      var own, end := next.js[|st.js|..], Steps(host, st, tokens).value.js;
      assert next.js == st.js + own && end == next.js + Rest(host, next, tokens[1..]);
      Assoc(st.js, own, Rest(host, next, tokens[1..]));
      assert end[|st.js|..] == own + Rest(host, next, tokens[1..]);
    }
  }

  lemma RestAfter(host: Host, st: Progress, a: seq<Token>, js: seq<Js>, st1: Progress, b: seq<Token>)
    requires Steps(host, st, a) == Ok(st1) && st1.js == st.js + js && Accepted(host, st, a + b)
    ensures Accepted(host, st1, b) && Rest(host, st, a + b) == js + Rest(host, st1, b)
    ensures NoElse(Rest(host, st1, b))
  {
    StepsAppend(StepOf(host), host, st, a, b);
    StepsGrow(host, st1, b);
    var end := Steps(host, st1, b).value.js;
    assert end == st1.js + Rest(host, st1, b);
    Assoc(st.js, js, Rest(host, st1, b));
    assert end[|st.js|..] == js + Rest(host, st1, b);
  }

  /** An accepted stretch has at most one `@extends`, counting one seen before. */
  lemma {:induction false} AcceptedFits(host: Host, st: Progress, tokens: seq<Token>)
    requires Steps(host, st, tokens).Ok?
    ensures LayoutFits(host, st, tokens)
    decreases tokens
  {
    if tokens != [] {
      var next := Step(host, st, tokens[0]).value;
      AcceptedFits(host, next, tokens[1..]);
      StepLayout(host, st, tokens[0]);
    }
  }

  lemma StepLayout(host: Host, st: Progress, token: Token)
    requires Step(host, st, token).Ok?
    ensures var next := Step(host, st, token).value;
      if IsExtends(token) then st.layout.None? && next.layout.Some? else next.layout == st.layout
  {
  }

  // ----- What acceptance says of one token -------------------------------------------------------------------------

  lemma SingleOk(host: Host, st: Progress, token: Token)
    requires Single(host, st, token).Ok?
    ensures LeafOk(host, token)
  {
    if token.At? && token.directive != AtExtends {
      LeafLineMeans(host, token);
    }
  }

  lemma LeafLineMeans(host: Host, token: Token)
    requires token.At? && LeafLine(host, token).Ok?
    ensures LeafOk(host, token)
  {
    if TakesArgs(token.directive) {
      ArgsLineMeans(host, token);
    }
  }

  lemma ArgsLineMeans(host: Host, token: Token)
    requires token.At? && TakesArgs(token.directive) && HasArgs(host, token.args) && ArgsLine(host, token).Ok?
    ensures LeafOk(host, token)
  {
  }

  lemma OpeningOk(host: Host, st: Progress, token: Token)
    requires token.At? && IsOpener(token.directive) && Opening(host, st, token).Ok?
    ensures Opener(host, token)
  {
  }

  /** A token that ends a stretch of nodes. */
  predicate Follower(token: Token) {
    token.At? && (token.directive in {AtElseIf, AtElse, AtEmpty} || Ends(token.directive).Some?)
  }

  // ----- After a stretch of nodes ------------------------------------------------------------------------------------

  lemma AfterNodes(host: Host, st: Progress, nodes: Nodes, rest: seq<Token>)
    requires WellFormed(host, nodes) && Accepted(host, st, Tokens(nodes) + rest)
    ensures var js := EmitNodes(host, nodes, |st.stack|);
      var st1 := Past(host, st, js, Tokens(nodes));
      && Accepted(host, st1, rest)
      && Rest(host, st, Tokens(nodes) + rest) == js + Rest(host, st1, rest)
      && NoElse(Rest(host, st1, rest))
      && ParseCode(Rest(host, st, Tokens(nodes) + rest))
        == Before(host, nodes, |st.stack|, ParseCode(Rest(host, st1, rest)))
  {
    var js := EmitNodes(host, nodes, |st.stack|);
    AcceptedFits(host, st, Tokens(nodes) + rest);
    FitsSplit(host, st, Tokens(nodes), rest, js);
    NodesEmit(StepOf(host), host, nodes, st);
    RestAfter(host, st, Tokens(nodes), js, Past(host, st, js, Tokens(nodes)), rest);
    NodesLoad(host, nodes, |st.stack|, Rest(host, Past(host, st, js, Tokens(nodes)), rest));
  }

  lemma AfterOpen(host: Host, st: Progress, tokens: seq<Token>)
    requires tokens != [] && Opener(host, tokens[0]) && Accepted(host, st, tokens)
    ensures var st1 := Opened(host, st, tokens[0]);
      && Accepted(host, st1, tokens[1..])
      && Rest(host, st, tokens) == OpenLines(host, tokens[0], |st.stack|) + Rest(host, st1, tokens[1..])
  {
    OpenSteps(StepOf(host), host, tokens[0], st);
    StepsOne(StepOf(host), host, st, tokens[0]);
    assert tokens == [tokens[0]] + tokens[1..];
    RestAfter(host, st, [tokens[0]], OpenLines(host, tokens[0], |st.stack|), Opened(host, st, tokens[0]), tokens[1..]);
  }

  // ----- A block that loads has a body that loads ------------------------------------------------

  lemma PlainInnerLoads(js: Js, more: seq<Js>)
    requires Plain(js) && ParseCode([js] + more).Some?
    ensures ParseCode(more).Some?
  {
    Tail(js, more);
  }

  lemma BodyInnerLoads(js: seq<Js>)
    requires ParseBody(js).Some?
    ensures ParseCode(js).Some?
  {
  }

  lemma BlockInnerLoads(js: seq<Js>)
    requires ParseCode([OpenBlock] + js).Some?
    ensures ParseCode(js).Some?
  {
    Tail(OpenBlock, js);
    assert ParseStmt([OpenBlock] + js).Some?;
    BodyInnerLoads(js);
  }

  lemma ForInnerLoads(header: Header, js: seq<Js>)
    requires ParseCode([OpenFor(header)] + js).Some?
    ensures ParseCode(js).Some?
  {
    Tail(OpenFor(header), js);
    assert ParseStmt([OpenFor(header)] + js).Some?;
    BodyInnerLoads(js);
  }

  /** An `if` that loads: its chain ends where something that loads follows. */
  predicate IfGoesOn(test: Test, js: seq<Js>) {
    match ParseIf(test, js)
    case None => false
    case Some((_, more)) => ParseCode(more).Some?
  }

  lemma IfInnerLoads(test: Test, js: seq<Js>)
    requires ParseCode([OpenIf(test)] + js).Some?
    ensures IfGoesOn(test, js) && ParseCode(js).Some?
  {
    Tail(OpenIf(test), js);
    assert ParseStmt([OpenIf(test)] + js).Some?;
    BodyInnerLoads(js);
  }

  lemma CaptureInnerLoads(js: seq<Js>)
    requires ParseCode([OpenBlock] + ([ConstOuter] + ([ClearOut] + js))).Some?
    ensures ParseCode(js).Some?
  {
    BlockInnerLoads([ConstOuter] + ([ClearOut] + js));
    PlainInnerLoads(ConstOuter, [ClearOut] + js);
    PlainInnerLoads(ClearOut, js);
  }

  lemma EachInnerLoads(bind: Js, test: Test, header: Header, js: seq<Js>)
    requires Plain(bind) && ParseCode([OpenBlock] + ([bind] + ([OpenIf(test)] + ([OpenFor(header)] + js)))).Some?
    ensures ParseCode(js).Some? && IfGoesOn(test, [OpenFor(header)] + js)
  {
    BlockInnerLoads([bind] + ([OpenIf(test)] + ([OpenFor(header)] + js)));
    PlainInnerLoads(bind, [OpenIf(test)] + ([OpenFor(header)] + js));
    IfInnerLoads(test, [OpenFor(header)] + js);
    ForInnerLoads(header, js);
  }

  lemma InnerLoads(host: Host, open: Token, depth: nat, js: seq<Js>)
    requires Opener(host, open) && ParseCode(OpenLines(host, open, depth) + js).Some?
    ensures ParseCode(js).Some?
  {
    if open.directive == AtIf {
      IfInnerLoads(When(Args(open)), js);
    } else if open.directive == AtFor {
      ForInnerLoads(ForOf(Args(open)), js);
    } else if open.directive == AtEach {
      var (item, coll) := host.syntax.each(Args(open)).value;
      FourFirst(OpenBlock, ConstEach(depth, coll), OpenIf(EachHasItems(depth)), OpenFor(EachOf(item, depth)), js);
      EachInnerLoads(ConstEach(depth, coll), EachHasItems(depth), EachOf(item, depth), js);
    } else {
      ThreeJoin(OpenBlock, ConstOuter, ClearOut, js);
      CaptureInnerLoads(js);
    }
  }

  lemma ThreeJoin(a: Js, b: Js, c: Js, js: seq<Js>)
    ensures [a, b, c] + js == [a] + ([b] + ([c] + js))
  {
  }

  // ----- Finding the nodes -----------------------------------------------------------------------

  /** The nodes at the front of an accepted token list, up to the token that ends them. */
  lemma {:induction false} FindNodes(host: Host, st: Progress, tokens: seq<Token>)
      returns (nodes: Nodes, rest: seq<Token>)
    requires Accepted(host, st, tokens) && ParseCode(Rest(host, st, tokens)).Some?
    ensures WellFormed(host, nodes) && tokens == Tokens(nodes) + rest
    ensures rest == [] || Follower(rest[0])
    decreases |tokens|, 5
  {
    if tokens == [] || Follower(tokens[0]) {
      nodes, rest := NoNodes, tokens;
      assert [] + rest == rest;
    } else {
      var node, rest1 := FindNode(host, st, tokens);
      var one := Cons(node, NoNodes);
      NilRight(NodeTokens(node));
      AfterNodes(host, st, one, rest1);
      var more;
      more, rest := FindNodes(host, Past(host, st, EmitNodes(host, one, |st.stack|), Tokens(one)), rest1);
      nodes := Cons(node, more);
      Assoc(NodeTokens(node), Tokens(more), rest);
    }
  }

  lemma {:induction false} FindNode(host: Host, st: Progress, tokens: seq<Token>) returns (node: Node, rest: seq<Token>)
    requires Accepted(host, st, tokens) && ParseCode(Rest(host, st, tokens)).Some?
    requires tokens != [] && !Follower(tokens[0])
    ensures NodeOk(host, node) && tokens == NodeTokens(node) + rest && |rest| < |tokens|
    decreases |tokens|, 4
  {
    var token := tokens[0];
    if token.At? && IsOpener(token.directive) {
      OpeningOk(host, st, token);
      if token.directive == AtIf {
        node, rest := FindIf(host, st, tokens);
      } else if token.directive == AtEach {
        node, rest := FindEach(host, st, tokens);
      } else {
        node, rest := FindWrap(host, st, tokens);
      }
    } else {
      SingleOk(host, st, token);
      node, rest := Leaf(token), tokens[1..];
      assert tokens == [token] + tokens[1..];
    }
  }

  /** The token after a body, if it closes, closes that block; if not, it belongs to its kind. */
  lemma FollowerFits(host: Host, st: Progress, rest: seq<Token>, kind: Directive)
    requires rest != [] && Follower(rest[0]) && Steps(host, st, rest).Ok? && TopIs(st.stack, kind)
    ensures Ends(rest[0].directive).Some? ==> Ends(rest[0].directive) == Some(kind)
    ensures rest[0].directive == AtEmpty ==> kind == AtEach
    ensures rest[0].directive in {AtElseIf, AtElse} ==> kind == AtIf
    ensures rest[0].directive == AtElseIf ==> HasArgs(host, rest[0].args)
    ensures Ends(rest[0].directive).None? ==> rest[0].directive in {AtElseIf, AtElse, AtEmpty}
  {
  }

  lemma {:induction false} FindWrap(host: Host, st: Progress, tokens: seq<Token>) returns (node: Node, rest: seq<Token>)
    requires Accepted(host, st, tokens) && ParseCode(Rest(host, st, tokens)).Some?
    requires tokens != [] && Opener(host, tokens[0]) && tokens[0].directive !in {AtIf, AtEach}
    ensures NodeOk(host, node) && tokens == NodeTokens(node) + rest && |rest| < |tokens|
    decreases |tokens|, 3
  {
    var open := tokens[0];
    var body, rest1 := FindBody(host, st, tokens);
    var st2 := AfterBody(host, st, open, body);
    FollowerFits(host, st2, rest1, open.directive);
    node, rest := Wrap(open, body, rest1[0]), rest1[1..];
    Whole(tokens, Tokens(body), rest1);
  }

  lemma Whole(tokens: seq<Token>, body: seq<Token>, rest: seq<Token>)
    requires tokens != [] && rest != [] && tokens[1..] == body + rest
    ensures tokens == [tokens[0]] + body + [rest[0]] + rest[1..]
  {
    assert tokens == [tokens[0]] + tokens[1..];
    assert rest == [rest[0]] + rest[1..];
  }

  /** The body of a block and the token that ends it. */
  lemma {:induction false} FindBody(host: Host, st: Progress, tokens: seq<Token>)
      returns (body: Nodes, rest: seq<Token>)
    requires Accepted(host, st, tokens) && ParseCode(Rest(host, st, tokens)).Some?
    requires tokens != [] && Opener(host, tokens[0])
    ensures WellFormed(host, body) && tokens[1..] == Tokens(body) + rest
    ensures rest != [] && Follower(rest[0])
    ensures var st2 := AfterBody(host, st, tokens[0], body);
      && Accepted(host, st2, rest)
      && Rest(host, st, tokens)
        == OpenLines(host, tokens[0], |st.stack|) + (EmitNodes(host, body, |st.stack| + 1) + Rest(host, st2, rest))
    decreases |tokens|, 2
  {
    var open, st1 := tokens[0], Opened(host, st, tokens[0]);
    AfterOpen(host, st, tokens);
    InnerLoads(host, open, |st.stack|, Rest(host, st1, tokens[1..]));
    body, rest := FindNodes(host, st1, tokens[1..]);
    AfterNodes(host, st1, body, rest);
  }

  // ----- `@each` ---------------------------------------------------------------------------------

  lemma {:induction false} FindEach(host: Host, st: Progress, tokens: seq<Token>) returns (node: Node, rest: seq<Token>)
    requires Accepted(host, st, tokens) && ParseCode(Rest(host, st, tokens)).Some?
    requires tokens != [] && EachOk(host, tokens[0])
    ensures NodeOk(host, node) && tokens == NodeTokens(node) + rest && |rest| < |tokens|
    decreases |tokens|, 3
  {
    var body, rest1 := FindBody(host, st, tokens);
    var st2 := AfterBody(host, st, tokens[0], body);
    FollowerFits(host, st2, rest1, AtEach);
    if rest1[0].directive == AtEndEach {
      node, rest := EachNode(tokens[0], body, rest1[0]), rest1[1..];
      Whole(tokens, Tokens(body), rest1);
    } else {
      var otherwise, rest2 := FindOtherwise(host, st2, rest1, tokens[0], body, |st.stack|);
      node, rest := EachElse(tokens[0], body, rest1[0], otherwise, rest2[0]), rest2[1..];
      TwoParts(tokens, Tokens(body), rest1, Tokens(otherwise), rest2);
      Shorter(tokens, Tokens(body), rest1, Tokens(otherwise), rest2);
    }
  }

  lemma Shorter(tokens: seq<Token>, body: seq<Token>, rest1: seq<Token>, otherwise: seq<Token>, rest2: seq<Token>)
    requires tokens != [] && rest1 != [] && rest2 != []
    requires tokens[1..] == body + rest1 && rest1[1..] == otherwise + rest2
    ensures |rest2[1..]| < |tokens|
  {
    assert |tokens[1..]| == |body| + |rest1| && |rest1[1..]| == |otherwise| + |rest2|;
  }

  lemma TwoParts(tokens: seq<Token>, body: seq<Token>, rest1: seq<Token>, otherwise: seq<Token>, rest2: seq<Token>)
    requires tokens != [] && rest1 != [] && rest2 != []
    requires tokens[1..] == body + rest1 && rest1[1..] == otherwise + rest2
    ensures tokens == [tokens[0]] + body + [rest1[0]] + otherwise + [rest2[0]] + rest2[1..]
  {
    assert tokens == [tokens[0]] + tokens[1..];
    assert rest1 == [rest1[0]] + rest1[1..] && rest2 == [rest2[0]] + rest2[1..];
  }

  lemma AfterEmpty(host: Host, st: Progress, tokens: seq<Token>)
    requires tokens != [] && TopIs(st.stack, AtEach) && Is(tokens[0], AtEmpty) && Accepted(host, st, tokens)
    ensures Accepted(host, Emptied(st), tokens[1..])
    ensures Rest(host, st, tokens) == [Close, Close, OpenElse] + Rest(host, Emptied(st), tokens[1..])
  {
    StepsOne(StepOf(host), host, st, tokens[0]);
    assert Step(host, st, tokens[0]) == Ok(Emptied(st));
    assert tokens == [tokens[0]] + tokens[1..];
    RestAfter(host, st, [tokens[0]], [Close, Close, OpenElse], Emptied(st), tokens[1..]);
  }

  /** What follows `@empty`, and the `@endeach` after it; a second `@empty` would not load. */
  lemma {:induction false} FindOtherwise(host: Host, st: Progress, tokens: seq<Token>, open: Token, body: Nodes,
      depth: nat)
    returns (otherwise: Nodes, rest: seq<Token>)
    requires tokens != [] && Is(tokens[0], AtEmpty) && TopIs(st.stack, AtEach) && |st.stack| == depth + 1
    requires Accepted(host, st, tokens) && EachOk(host, open) && WellFormed(host, body)
    requires ParseCode(OpenLines(host, open, depth) + (EmitNodes(host, body, depth + 1) + Rest(host, st, tokens))).Some?
    ensures WellFormed(host, otherwise) && tokens[1..] == Tokens(otherwise) + rest
    ensures rest != [] && Is(rest[0], AtEndEach)
    decreases |tokens|, 2
  {
    var st1 := Emptied(st);
    AfterEmpty(host, st, tokens);
    EmptyInnerLoads(host, open, body, depth, Rest(host, st1, tokens[1..]));
    otherwise, rest := FindNodes(host, st1, tokens[1..]);
    AfterNodes(host, st1, otherwise, rest);
    EachEnds(host, Past(host, st1, EmitNodes(host, otherwise, depth + 1), Tokens(otherwise)), rest, open, body,
      otherwise, depth);
  }

  /** Only `@endeach` can follow what comes after `@empty`. */
  lemma EachEnds(host: Host, st: Progress, rest: seq<Token>, open: Token, body: Nodes, otherwise: Nodes, depth: nat)
    requires rest != [] && Follower(rest[0]) && TopIs(st.stack, AtEach) && Accepted(host, st, rest)
    requires EachOk(host, open) && WellFormed(host, body) && WellFormed(host, otherwise)
    requires ParseCode(OpenLines(host, open, depth) + (EmitNodes(host, body, depth + 1) + ([Close, Close, OpenElse]
      + (EmitNodes(host, otherwise, depth + 1) + Rest(host, st, rest))))).Some?
    ensures Is(rest[0], AtEndEach)
  {
    EachFollower(host, st, rest);
    if Is(rest[0], AtEmpty) {
      NotEmptyAgain(host, st, rest, open, body, otherwise, depth);
    }
  }

  lemma EachFollower(host: Host, st: Progress, rest: seq<Token>)
    requires rest != [] && Follower(rest[0]) && TopIs(st.stack, AtEach) && Accepted(host, st, rest)
    ensures Is(rest[0], AtEndEach) || Is(rest[0], AtEmpty)
  {
    FollowerFits(host, st, rest, AtEach);
  }

  lemma NotEmptyAgain(host: Host, st: Progress, rest: seq<Token>, open: Token, body: Nodes, otherwise: Nodes,
      depth: nat)
    requires rest != [] && Is(rest[0], AtEmpty) && TopIs(st.stack, AtEach) && Accepted(host, st, rest)
    requires EachOk(host, open) && WellFormed(host, body) && WellFormed(host, otherwise)
    ensures ParseCode(OpenLines(host, open, depth) + (EmitNodes(host, body, depth + 1) + ([Close, Close, OpenElse]
      + (EmitNodes(host, otherwise, depth + 1) + Rest(host, st, rest))))) == None
  {
    AfterEmpty(host, st, rest);
    SecondEmptyFails(host, open, body, depth, otherwise, Rest(host, Emptied(st), rest[1..]));
  }

  lemma EmptyInnerLoads(host: Host, open: Token, body: Nodes, depth: nat, js: seq<Js>)
    requires EachOk(host, open) && WellFormed(host, body)
    requires ParseCode(OpenLines(host, open, depth) + (EmitNodes(host, body, depth + 1)
      + ([Close, Close, OpenElse] + js))).Some?
    ensures ParseCode(js).Some?
  {
    var (item, coll) := host.syntax.each(Args(open)).value;
    var inner := EmitNodes(host, body, depth + 1) + ([Close, Close, OpenElse] + js);
    FourFirst(OpenBlock, ConstEach(depth, coll), OpenIf(EachHasItems(depth)), OpenFor(EachOf(item, depth)), inner);
    EachInnerLoads(ConstEach(depth, coll), EachHasItems(depth), EachOf(item, depth), inner);
    ThreeJoin(Close, Close, OpenElse, js);
    EachLoopLoads(host, EachOf(item, depth), body, depth + 1, [OpenElse] + js);
    ElseInnerLoads(EachHasItems(depth), [OpenFor(EachOf(item, depth))] + inner,
      Seq(For(EachOf(item, depth), CodeOf(host, body, depth + 1, Skip)), Skip), js);
  }

  lemma ElseInnerLoads(test: Test, js: seq<Js>, body: Code, js1: seq<Js>)
    requires Loads(js, body, [Close] + ([OpenElse] + js1)) && IfGoesOn(test, js)
    ensures ParseCode(js1).Some?
  {
    LoadBody(js, body, [OpenElse] + js1);
    Tail(OpenElse, js1);
    BodyInnerLoads(js1);
  }

  lemma SecondEmptyFails(host: Host, open: Token, body: Nodes, depth: nat, otherwise: Nodes, js: seq<Js>)
    requires EachOk(host, open) && WellFormed(host, body) && WellFormed(host, otherwise)
    ensures ParseCode(OpenLines(host, open, depth) + (EmitNodes(host, body, depth + 1) + ([Close, Close, OpenElse]
      + (EmitNodes(host, otherwise, depth + 1) + ([Close, Close, OpenElse] + js))))) == None
  {
    var more := [OpenElse] + js;
    var js1 := EmitNodes(host, otherwise, depth + 1) + ([Close] + ([Close] + more));
    BodyLoads(host, otherwise, depth + 1, [Close] + more);
    EachElseBlock(host, open, body, depth, js1, CodeOf(host, otherwise, depth + 1, Skip), more);
    ThreeJoin(Close, Close, OpenElse, js);
    ThreeJoin(Close, Close, OpenElse, js1);
    LoadsNoElse(more);
    StmtThenFails(OpenLines(host, open, depth) + (EmitNodes(host, body, depth + 1)
      + ([Close] + ([Close] + ([OpenElse] + js1)))),
      EachCode(host, open, depth, CodeOf(host, body, depth + 1, Skip), CodeOf(host, otherwise, depth + 1, Skip)), more);
  }

  lemma StmtThenFails(js: seq<Js>, stmt: Stmt, more: seq<Js>)
    requires LoadsStmt(js, stmt, more) && ParseCode(more) == None
    ensures ParseCode(js) == None
  {
  }

  // ----- `@if` -----------------------------------------------------------------------------------

  lemma {:induction false} FindIf(host: Host, st: Progress, tokens: seq<Token>) returns (node: Node, rest: seq<Token>)
    requires Accepted(host, st, tokens) && ParseCode(Rest(host, st, tokens)).Some?
    requires tokens != [] && Is(tokens[0], AtIf) && HasArgs(host, tokens[0].args)
    ensures NodeOk(host, node) && tokens == NodeTokens(node) + rest && |rest| < |tokens|
    decreases |tokens|, 3
  {
    var body, rest1 := FindBody(host, st, tokens);
    var tail;
    tail, rest := FindIfTail(host, st, tokens[0], body, rest1, Rest(host, st, tokens));
    node := IfNode(tokens[0], body, tail);
    ChainTokens(tokens, Tokens(body), rest1, TailTokens(tail), rest);
  }

  /** The chain after the first body of an `@if`. */
  lemma {:induction false} FindIfTail(host: Host, st: Progress, open: Token, body: Nodes, tokens: seq<Token>,
      whole: seq<Js>)
    returns (tail: IfTail, rest: seq<Token>)
    requires Is(open, AtIf) && HasArgs(host, open.args) && WellFormed(host, body) && tokens != [] && Follower(tokens[0])
    requires Accepted(host, AfterBody(host, st, open, body), tokens) && ParseCode(whole).Some?
    requires whole == [OpenIf(When(open.args.value))]
      + (EmitNodes(host, body, |st.stack| + 1) + Rest(host, AfterBody(host, st, open, body), tokens))
    ensures TailOk(host, tail) && tokens == TailTokens(tail) + rest && |rest| < |tokens|
    decreases |tokens|, 3
  {
    var st2 := AfterBody(host, st, open, body);
    IfBodyGoesOn(open, EmitNodes(host, body, |st.stack| + 1) + Rest(host, st2, tokens), whole);
    tail, rest := FindTail(host, st2, tokens, When(open.args.value), body);
  }

  lemma IfBodyGoesOn(open: Token, js: seq<Js>, whole: seq<Js>)
    requires open.At? && open.args.Some? && whole == [OpenIf(When(open.args.value))] + js && ParseCode(whole).Some?
    ensures IfGoesOn(When(open.args.value), js)
  {
    IfInnerLoads(When(open.args.value), js);
  }

  lemma AfterMiddleToken(host: Host, st: Progress, tokens: seq<Token>)
    requires tokens != [] && TopIs(st.stack, AtIf) && IsMiddle(host, tokens[0]) && Accepted(host, st, tokens)
    ensures var st1 := Past(host, st, MiddleLines(host, tokens[0]), [tokens[0]]);
      && Accepted(host, st1, tokens[1..])
      && Rest(host, st, tokens) == MiddleLines(host, tokens[0]) + Rest(host, st1, tokens[1..])
  {
    MiddleSteps(StepOf(host), host, st, tokens[0]);
    assert tokens == [tokens[0]] + tokens[1..];
    RestAfter(host, st, [tokens[0]], MiddleLines(host, tokens[0]),
      Past(host, st, MiddleLines(host, tokens[0]), [tokens[0]]), tokens[1..]);
  }

  /** The body under `@elseif` or `@else` and the token that ends it. */
  lemma {:induction false} FindMiddleBody(host: Host, st: Progress, tokens: seq<Token>, test: Test, body: Nodes)
    returns (body1: Nodes, rest: seq<Token>)
    requires tokens != [] && IsMiddle(host, tokens[0]) && TopIs(st.stack, AtIf) && Accepted(host, st, tokens)
    requires WellFormed(host, body)
    requires IfGoesOn(test, EmitNodes(host, body, |st.stack|) + Rest(host, st, tokens))
    ensures WellFormed(host, body1) && tokens[1..] == Tokens(body1) + rest
    ensures rest != [] && Follower(rest[0]) && Accepted(host, AfterMiddle(host, st, tokens[0], body1), rest)
    ensures Rest(host, st, tokens)
      == MiddleLines(host, tokens[0])
        + (EmitNodes(host, body1, |st.stack|) + Rest(host, AfterMiddle(host, st, tokens[0], body1), rest))
    decreases |tokens|, 1
  {
    var st1 := Past(host, st, MiddleLines(host, tokens[0]), [tokens[0]]);
    AfterMiddleToken(host, st, tokens);
    MiddleInnerLoads(host, test, body, |st.stack|, tokens[0], Rest(host, st1, tokens[1..]));
    body1, rest := FindNodes(host, st1, tokens[1..]);
    AfterNodes(host, st1, body1, rest);
  }

  /** The rest of an `if` chain after a body. */
  lemma {:induction false} FindTail(host: Host, st: Progress, tokens: seq<Token>, test: Test, body: Nodes)
    returns (tail: IfTail, rest: seq<Token>)
    requires tokens != [] && Follower(tokens[0]) && TopIs(st.stack, AtIf) && Accepted(host, st, tokens)
    requires WellFormed(host, body)
    requires IfGoesOn(test, EmitNodes(host, body, |st.stack|) + Rest(host, st, tokens))
    ensures TailOk(host, tail) && tokens == TailTokens(tail) + rest && |rest| < |tokens|
    decreases |tokens|, 2
  {
    IfFollower(host, st, tokens);
    if tokens[0].directive == AtEndIf {
      tail, rest := EndIf(tokens[0]), tokens[1..];
      assert tokens == [tokens[0]] + tokens[1..];
    } else {
      var body1, rest1 := FindMiddleBody(host, st, tokens, test, body);
      var st2 := AfterMiddle(host, st, tokens[0], body1);
      var js := EmitNodes(host, body1, |st.stack|) + Rest(host, st2, rest1);
      if tokens[0].directive == AtElseIf {
        MiddleInnerLoads(host, test, body, |st.stack|, tokens[0], js);
        var tail1;
        tail1, rest := FindTail(host, st2, rest1, When(tokens[0].args.value), body1);
        tail := ElseIf(tokens[0], body1, tail1);
        ChainTokens(tokens, Tokens(body1), rest1, TailTokens(tail1), rest);
      } else {
        ElseEnds(host, st2, rest1, test, body, body1, |st.stack|);
        tail, rest := Else(tokens[0], body1, rest1[0]), rest1[1..];
        Whole(tokens, Tokens(body1), rest1);
      }
    }
  }

  lemma ChainTokens(tokens: seq<Token>, body: seq<Token>, rest1: seq<Token>, tail: seq<Token>, rest: seq<Token>)
    requires tokens != [] && tokens[1..] == body + rest1 && rest1 == tail + rest
    ensures tokens == [tokens[0]] + body + tail + rest
  {
    assert tokens == [tokens[0]] + tokens[1..];
  }

  /** Only `@endif` can follow the body under `@else`. */
  lemma ElseEnds(host: Host, st: Progress, rest: seq<Token>, test: Test, body: Nodes, body1: Nodes, depth: nat)
    requires rest != [] && Follower(rest[0]) && TopIs(st.stack, AtIf) && Accepted(host, st, rest)
    requires WellFormed(host, body) && WellFormed(host, body1)
    requires IfGoesOn(test, EmitNodes(host, body, depth) + ([Close, OpenElse]
      + (EmitNodes(host, body1, depth) + Rest(host, st, rest))))
    ensures Is(rest[0], AtEndIf)
  {
    IfFollower(host, st, rest);
    if !Is(rest[0], AtEndIf) {
      NoSecondElse(host, st, rest, test, body, body1, depth);
    }
  }

  lemma IfFollower(host: Host, st: Progress, rest: seq<Token>)
    requires rest != [] && Follower(rest[0]) && TopIs(st.stack, AtIf) && Accepted(host, st, rest)
    ensures Is(rest[0], AtEndIf) || IsMiddle(host, rest[0])
  {
    FollowerFits(host, st, rest, AtIf);
  }

  lemma NoSecondElse(host: Host, st: Progress, rest: seq<Token>, test: Test, body: Nodes, body1: Nodes, depth: nat)
    requires rest != [] && IsMiddle(host, rest[0]) && TopIs(st.stack, AtIf) && Accepted(host, st, rest)
    requires WellFormed(host, body) && WellFormed(host, body1)
    ensures !IfGoesOn(test, EmitNodes(host, body, depth)
      + ([Close, OpenElse] + (EmitNodes(host, body1, depth) + Rest(host, st, rest))))
  {
    AfterMiddleToken(host, st, rest);
    var js := Rest(host, Past(host, st, MiddleLines(host, rest[0]), [rest[0]]), rest[1..]);
    SecondElseFails(host, test, body, depth, body1, rest[0], js);
  }

  /** After `@elseif` the chain goes on with its own test; after `@else` what follows loads. */
  lemma MiddleInnerLoads(host: Host, test: Test, body: Nodes, depth: nat, token: Token, js: seq<Js>)
    requires WellFormed(host, body) && IsMiddle(host, token)
    requires IfGoesOn(test, EmitNodes(host, body, depth) + (MiddleLines(host, token) + js))
    ensures ParseCode(js).Some?
    ensures token.directive == AtElseIf ==> IfGoesOn(When(token.args.value), js)
  {
    var next := MiddleLines(host, token)[1];
    var whole := EmitNodes(host, body, depth) + (MiddleLines(host, token) + js);
    TwoJoin(Close, next, js);
    BodyLoads(host, body, depth, [next] + js);
    LoadBody(whole, CodeOf(host, body, depth, Skip), [next] + js);
    Tail(next, js);
    assert ParseBody(whole) == Some((CodeOf(host, body, depth, Skip), [next] + js));
    if token.directive == AtElseIf {
      assert ParseIf(When(token.args.value), js).Some?;
    }
    BodyInnerLoads(js);
  }

  lemma TwoJoin(a: Js, b: Js, js: seq<Js>)
    ensures [a, b] + js == [a] + ([b] + js)
  {
  }

  lemma SecondElseFails(host: Host, test: Test, body: Nodes, depth: nat, body1: Nodes, token: Token, js: seq<Js>)
    requires WellFormed(host, body) && WellFormed(host, body1) && IsMiddle(host, token)
    ensures !IfGoesOn(test, EmitNodes(host, body, depth)
      + ([Close, OpenElse] + (EmitNodes(host, body1, depth) + (MiddleLines(host, token) + js))))
  {
    var next := MiddleLines(host, token)[1];
    var js1 := EmitNodes(host, body1, depth) + (MiddleLines(host, token) + js);
    TwoJoin(Close, next, js);
    BodyLoads(host, body1, depth, [next] + js);
    TwoJoin(Close, OpenElse, js1);
    BodyLoads(host, body, depth, [OpenElse] + js1);
    LoadIfElse(test, EmitNodes(host, body, depth) + ([Close] + ([OpenElse] + js1)), CodeOf(host, body, depth, Skip),
      js1, CodeOf(host, body1, depth, Skip), [next] + js);
    LoadsNoElse([next] + js);
  }

  // ----- The compiler accepts exactly the well-formed templates ----------------------------------

  /** Completeness: every accepted token list is the written form of a well-formed template with
      at most one `@extends`. Nothing else passes: not a dangling or second `@else`, not a second
      `@empty`, not an unclosed or crossed block. */
  lemma AcceptedIsTemplate(host: Host, tokens: seq<Token>) returns (nodes: Nodes)
    requires Compilation(host, tokens).Ok?
    ensures WellFormed(host, nodes) && Tokens(nodes) == tokens && |Extended(host, tokens)| <= 1
  {
    var st := Steps(host, START, tokens).value;
    StepsGrow(host, START, tokens);
    assert Rest(host, START, tokens) == st.js;
    AcceptedFits(host, START, tokens);
    var rest;
    nodes, rest := FindNodes(host, START, tokens);
    AfterNodes(host, START, nodes, rest);
    if rest != [] {
      EmptyStackStops(host, Past(host, START, EmitNodes(host, nodes, 0), Tokens(nodes)), rest);
    }
    NilRight(Tokens(nodes));
  }

  /** With no block open, no follower is accepted. */
  lemma EmptyStackStops(host: Host, st: Progress, rest: seq<Token>)
    requires rest != [] && Follower(rest[0]) && st.stack == []
    ensures Steps(host, st, rest).Err?
  {
  }

  /** Compiling succeeds exactly on the written forms of well-formed templates. */
  lemma AcceptsExactlyTemplates(host: Host, tokens: seq<Token>)
    ensures Compilation(host, tokens).Ok? <==>
      exists nodes :: WellFormed(host, nodes) && Tokens(nodes) == tokens && |Extended(host, tokens)| <= 1
  {
    if Compilation(host, tokens).Ok? {
      var nodes := AcceptedIsTemplate(host, tokens);
    }
    forall nodes | WellFormed(host, nodes) && Tokens(nodes) == tokens && |Extended(host, tokens)| <= 1
      ensures Compilation(host, tokens).Ok?
    {
      CompilerIsCorrect(host, nodes, map[], Pool(map[], map[]));
    }
  }
}
