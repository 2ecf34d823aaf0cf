/** From template source to html: what is printed, scanned, compiled and run is what the tree
    renders. */
module ViewPipeline {
  import opened Prelude
  import opened ViewText
  import opened ViewHost
  import opened Template
  import opened EmittedJs
  import opened Compiler
  import opened CompilerCorrect
  import opened CompilerRuns
  import opened Tokenizer
  import opened TokenizerRoundTrip

  // ----- Lines do not matter to a compilation that succeeds --------------------------------------------------

  /** Frames alike but for the line they were opened on. */
  predicate SameFrames(a: seq<Frame>, b: seq<Frame>) {
    |a| == |b| && forall i :: 0 <= i < |a| ==> a[i].(line := 0) == b[i].(line := 0)
  }

  predicate SameProgress(a: Progress, b: Progress) {
    a.js == b.js && a.layout == b.layout && SameFrames(a.stack, b.stack)
  }

  predicate SameResult(a: Result<Progress, CompileError>, b: Result<Progress, CompileError>) {
    a.Ok? ==> b.Ok? && SameProgress(a.value, b.value)
  }

  lemma TopAlike(a: seq<Frame>, b: seq<Frame>)
    requires SameFrames(a, b) && a != []
    ensures b != []
    ensures var top := |a| - 1;
      && a[top].(line := 0) == b[top].(line := 0)
      && SameFrames(a[..top], b[..top])
      && SameFrames(a[top := a[top].(hasEmpty := true)], b[top := b[top].(hasEmpty := true)])
  {
  }

  lemma OpeningAlike(host: Host, p: Progress, q: Progress, a: Token, b: Token)
    requires SameProgress(p, q) && OnLine(a, 0) == OnLine(b, 0) && a.At? && IsOpener(a.directive)
    ensures b.At? && IsOpener(b.directive) && SameResult(Opening(host, p, a), Opening(host, q, b))
  {
    assert a.directive == b.directive && a.args == b.args;
    if OpenFrame(host, a).Ok? {
      assert OpenFrame(host, b).Ok?;
      assert OpenFrame(host, a).value.(line := 0) == OpenFrame(host, b).value.(line := 0);
    }
  }

  lemma ClosingAlike(p: Progress, q: Progress, a: Token, b: Token, kind: Directive)
    requires SameProgress(p, q) && a.At? && b.At?
    ensures SameResult(Closing(p, a, kind), Closing(q, b, kind))
  {
    if p.stack != [] {
      TopAlike(p.stack, q.stack);
      var top := |p.stack| - 1;
      assert CloseLines(p.stack[top]) == CloseLines(p.stack[top].(line := 0));
      assert CloseLines(q.stack[top]) == CloseLines(q.stack[top].(line := 0));
    }
  }

  lemma MiddleAlike(host: Host, p: Progress, q: Progress, a: Token, b: Token)
    requires SameProgress(p, q) && OnLine(a, 0) == OnLine(b, 0) && a.At?
    ensures b.At? && SameResult(Middle(host, p, a), Middle(host, q, b))
  {
    assert a.directive == b.directive && a.args == b.args;
    if p.stack != [] {
      TopAlike(p.stack, q.stack);
    }
  }

  lemma SingleAlike(host: Host, p: Progress, q: Progress, a: Token, b: Token)
    requires SameProgress(p, q) && OnLine(a, 0) == OnLine(b, 0)
    ensures SameResult(Single(host, p, a), Single(host, q, b))
  {
  }

  lemma StepAlike(host: Host, p: Progress, q: Progress, a: Token, b: Token)
    requires SameProgress(p, q) && OnLine(a, 0) == OnLine(b, 0)
    ensures SameResult(Step(host, p, a), Step(host, q, b))
  {
    if a.At? {
      assert a.directive == b.directive;
    }
    if a.At? && IsOpener(a.directive) {
      OpeningAlike(host, p, q, a, b);
    } else if a.At? && a.directive in {AtElseIf, AtElse, AtEmpty} {
      MiddleAlike(host, p, q, a, b);
    } else if a.At? && Ends(a.directive).Some? {
      ClosingAlike(p, q, a, b, Ends(a.directive).value);
    } else {
      SingleAlike(host, p, q, a, b);
    }
  }

  lemma {:induction false} StepsAlike(host: Host, p: Progress, q: Progress, a: seq<Token>, b: seq<Token>)
    requires SameProgress(p, q) && Erase(a) == Erase(b)
    ensures SameResult(Steps(host, p, a), Steps(host, q, b))
    decreases |a|
  {
    if a != [] {
      assert Erase(a)[0] == OnLine(a[0], 0) && Erase(b)[0] == OnLine(b[0], 0);
      assert Erase(a)[1..] == Erase(a[1..]) && Erase(b)[1..] == Erase(b[1..]);
      StepAlike(host, p, q, a[0], b[0]);
      if Step(host, p, a[0]).Ok? {
        StepsAlike(host, Step(host, p, a[0]).value, Step(host, q, b[0]).value, a[1..], b[1..]);
      }
    }
  }

  /** If a token list compiles, so does every list that differs in lines only, to the same code. */
  lemma LinesDoNotMatter(host: Host, a: seq<Token>, b: seq<Token>)
    requires Erase(a) == Erase(b) && Compilation(host, a).Ok?
    ensures Compilation(host, b) == Compilation(host, a)
  {
    StepsAlike(host, START, START, a, b);
  }

  // ----- Source to html ------------------------------------------------------------------------------------------

  /** For every well-formed template of canonical tokens with at most one `@extends`: scanning its
      printed source succeeds, the tokens compile, and running the code gives the html, the
      sections, the stacks and the error of rendering the tree, whatever the data. */
  lemma SourceRenders(host: Host, nodes: Nodes, env: Env, pool: Pool)
    requires WellFormed(host, nodes) && |Extended(host, Template.Tokens(nodes))| <= 1
    requires Canonical(Template.Tokens(nodes))
    ensures var scanned := Scanned(Spots(FROZEN, PrintAll(Template.Tokens(nodes))));
      && scanned.Ok?
      && var compiled := Compilation(host, scanned.value);
      && compiled.Ok? && compiled.value.layout == LayoutAfter(None, Extended(host, Template.Tokens(nodes)))
      && RunCompiled(host, compiled.value, env, pool) == Render(host, nodes, env, pool)
  {
    var tokens := Template.Tokens(nodes);
    RoundTrip(tokens);
    CompilerIsCorrect(host, nodes, env, pool);
    LinesDoNotMatter(host, tokens, Scanned(Spots(FROZEN, PrintAll(tokens))).value);
  }
}
