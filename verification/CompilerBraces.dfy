/** The braces the compiler emits, counted between any two tokens. */
module CompilerBraces {
  import opened Prelude
  import opened ViewText
  import opened ViewHost
  import opened Template
  import opened EmittedJs
  import opened Compiler

  function Delta(js: Js): int {
    if Opens(js) then 1 else if js.Close? then -1 else 0
  }

  /** Open braces less closed ones. Expressions are taken to balance their own. */
  function Depth(js: seq<Js>): int {
    if js == [] then 0 else Delta(js[0]) + Depth(js[1..])
  }

  /** Starting `d` deep, no prefix closes more than is open. */
  predicate StaysUp(d: int, js: seq<Js>)
    decreases js
  {
    d >= 0 && (js != [] ==> StaysUp(d + Delta(js[0]), js[1..]))
  }

  lemma {:induction false} DepthAppend(a: seq<Js>, b: seq<Js>)
    ensures Depth(a + b) == Depth(a) + Depth(b)
  {
    if a == [] {
      assert a + b == b;
    } else {
      assert (a + b)[0] == a[0] && (a + b)[1..] == a[1..] + b;
      DepthAppend(a[1..], b);
    }
  }

  lemma {:induction false} StaysUpAppend(d: int, a: seq<Js>, b: seq<Js>)
    requires StaysUp(d, a) && StaysUp(d + Depth(a), b)
    ensures StaysUp(d, a + b)
    decreases a
  {
    if a == [] {
      assert a + b == b;
    } else {
      assert (a + b)[0] == a[0] && (a + b)[1..] == a[1..] + b;
      StaysUpAppend(d + Delta(a[0]), a[1..], b);
    }
  }

  /** `StaysUp` said of prefixes. */
  lemma {:induction false} StaysUpPrefix(d: int, js: seq<Js>, n: nat)
    requires StaysUp(d, js) && n <= |js|
    ensures d + Depth(js[..n]) >= 0
    decreases n
  {
    if n > 0 {
      StaysUpPrefix(d + Delta(js[0]), js[1..], n - 1);
      assert js[..n][1..] == js[1..][..n - 1];
    }
  }

  // ----- Weights of open blocks -----------------------------------------------------------------------------

  /** Braces an open block has open: a block, a test and a loop for `@each`, less the loop once
      `@empty` has been seen; one for every other block. */
  function Weight(frame: Frame): nat {
    if frame.kind == AtEach then (if frame.hasEmpty then 2 else 3) else 1
  }

  function Weights(stack: seq<Frame>): nat {
    if stack == [] then 0 else Weights(stack[..|stack| - 1]) + Weight(stack[|stack| - 1])
  }

  /** One for an `@empty` in an `@each` that already had one; the compiler does not check this. */
  function Surplus(st: Progress, token: Token): nat {
    if Is(token, AtEmpty) && st.stack != [] && st.stack[|st.stack| - 1].hasEmpty then 1 else 0
  }

  function SurplusIn(host: Host, st: Progress, tokens: seq<Token>): nat
    decreases tokens
  {
    if tokens == [] then 0
    else
      Surplus(st, tokens[0])
      + match Step(host, st, tokens[0])
        case Err(_) => 0
        case Ok(next) => SurplusIn(host, next, tokens[1..])
  }

  /** Emitted depth is the weight of the open blocks, and no prefix went below zero. */
  predicate Balanced(st: Progress) {
    Depth(st.js) == Weights(st.stack) && StaysUp(0, st.js)
  }

  /** Only `@each` blocks have an empty part. */
  predicate FramesOk(stack: seq<Frame>) {
    forall i :: 0 <= i < |stack| && stack[i].hasEmpty ==> stack[i].kind == AtEach
  }

  // ----- One token --------------------------------------------------------------------------------------------

  lemma DepthOf(js: seq<Js>)
    requires |js| <= 4
    ensures |js| == 1 ==> Depth(js) == Delta(js[0])
    ensures |js| == 2 ==> Depth(js) == Delta(js[0]) + Delta(js[1])
    ensures |js| == 3 ==> Depth(js) == Delta(js[0]) + Delta(js[1]) + Delta(js[2])
    ensures |js| == 4 ==> Depth(js) == Delta(js[0]) + Delta(js[1]) + Delta(js[2]) + Delta(js[3])
  {
    if |js| > 0 {
      if |js| > 1 {
        if |js| > 2 {
          assert js[1..][1..][1..] == js[3..];
        }
        assert js[1..][1..] == js[2..];
      }
    }
    if |js| == 4 {
      assert js[3..][1..] == [];
    }
  }

  lemma {:induction false} StaysUpOf(d: int, js: seq<Js>)
    requires |js| <= 4 && d >= 0
    requires |js| >= 1 ==> d + Delta(js[0]) >= 0
    requires |js| >= 2 ==> d + Delta(js[0]) + Delta(js[1]) >= 0
    requires |js| >= 3 ==> d + Delta(js[0]) + Delta(js[1]) + Delta(js[2]) >= 0
    requires |js| >= 4 ==> d + Delta(js[0]) + Delta(js[1]) + Delta(js[2]) + Delta(js[3]) >= 0
    ensures StaysUp(d, js)
    decreases js
  {
    if js != [] {
      StaysUpOf(d + Delta(js[0]), js[1..]);
    }
  }

  lemma OpenLinesDepth(host: Host, token: Token, depth: nat, frame: Frame, d: nat)
    requires token.At? && IsOpener(token.directive)
    requires token.directive == AtEach ==> host.syntax.each(Args(token)).Some?
    requires frame.kind == token.directive && !frame.hasEmpty
    ensures Depth(OpenLines(host, token, depth)) == Weight(frame) && StaysUp(d, OpenLines(host, token, depth))
  {
    DepthOf(OpenLines(host, token, depth));
    StaysUpOf(d, OpenLines(host, token, depth));
  }

  lemma CloseLinesDepth(frame: Frame, d: nat)
    requires d >= Weight(frame) && (frame.hasEmpty ==> frame.kind == AtEach)
    ensures Depth(CloseLines(frame)) == 0 - Weight(frame) && StaysUp(d, CloseLines(frame))
  {
    DepthOf(CloseLines(frame));
    StaysUpOf(d, CloseLines(frame));
  }

  lemma WeightsPush(stack: seq<Frame>, frame: Frame)
    ensures Weights(stack + [frame]) == Weights(stack) + Weight(frame)
  {
    assert (stack + [frame])[..|stack|] == stack;
  }

  lemma WeightsTop(stack: seq<Frame>, frame: Frame)
    requires stack != []
    ensures Weights(stack[|stack| - 1 := frame]) == Weights(stack[..|stack| - 1]) + Weight(frame)
  {
    assert stack[|stack| - 1 := frame] == stack[..|stack| - 1] + [frame];
    WeightsPush(stack[..|stack| - 1], frame);
  }

  /** A leaf emits no brace. */
  lemma SingleDepth(host: Host, st: Progress, token: Token)
    requires Single(host, st, token).Ok?
    ensures var next := Single(host, st, token).value;
      && next.stack == st.stack && Depth(next.js) == Depth(st.js) && (StaysUp(0, st.js) ==> StaysUp(0, next.js))
  {
    var next := Single(host, st, token).value;
    var js := next.js[|st.js|..];
    assert next.js == st.js + js && |js| <= 1 && (js != [] ==> Plain(js[0])) by {
      if token.At? && token.directive != AtExtends {
        LeafLinePlain(host, token);
      }
    }
    DepthOf(js);
    DepthAppend(st.js, js);
    if StaysUp(0, st.js) {
      UpAtEnd(0, st.js);
      StaysUpOf(Depth(st.js), js);
      StaysUpAppend(0, st.js, js);
    }
  }

  lemma LeafLinePlain(host: Host, token: Token)
    requires token.At? && LeafLine(host, token).Ok?
    ensures |LeafLine(host, token).value| == 1 && Plain(LeafLine(host, token).value[0])
  {
  }

  lemma UpAtEnd(d: int, js: seq<Js>)
    requires StaysUp(d, js)
    ensures d + Depth(js) >= 0
  {
    StaysUpPrefix(d, js, |js|);
    assert js[..|js|] == js;
  }

  lemma OpeningBraces(host: Host, st: Progress, token: Token)
    requires token.At? && IsOpener(token.directive) && Opening(host, st, token).Ok? && FramesOk(st.stack)
    ensures var next := Opening(host, st, token).value;
      && FramesOk(next.stack)
      && Depth(next.js) - Weights(next.stack) == Depth(st.js) - Weights(st.stack)
      && (Balanced(st) ==> Balanced(next))
  {
    var frame := OpenFrame(host, token).value;
    var js := OpenLines(host, token, |st.stack|);
    OpenLinesDepth(host, token, |st.stack|, frame, Weights(st.stack));
    DepthAppend(st.js, js);
    WeightsPush(st.stack, frame);
    if Balanced(st) {
      StaysUpAppend(0, st.js, js);
    }
  }

  lemma ClosingBraces(st: Progress, token: Token, kind: Directive)
    requires token.At? && Closing(st, token, kind).Ok? && FramesOk(st.stack)
    ensures var next := Closing(st, token, kind).value;
      && FramesOk(next.stack)
      && Depth(next.js) - Weights(next.stack) == Depth(st.js) - Weights(st.stack)
      && (Balanced(st) ==> Balanced(next))
  {
    var frame := st.stack[|st.stack| - 1];
    CloseLinesDepth(frame, Weights(st.stack));
    DepthAppend(st.js, CloseLines(frame));
    if Balanced(st) {
      StaysUpAppend(0, st.js, CloseLines(frame));
    }
  }

  lemma MiddleBraces(host: Host, st: Progress, token: Token)
    requires token.At? && token.directive in {AtElseIf, AtElse, AtEmpty} && Middle(host, st, token).Ok?
    requires FramesOk(st.stack)
    ensures var next := Middle(host, st, token).value;
      && FramesOk(next.stack)
      && Depth(next.js) - Weights(next.stack) == Depth(st.js) - Weights(st.stack) - Surplus(st, token)
      && (Balanced(st) && Surplus(st, token) == 0 ==> Balanced(next))
  {
    var next := Middle(host, st, token).value;
    var top := st.stack[|st.stack| - 1];
    var js := if token.directive == AtEmpty then [Close, Close, OpenElse]
      else if token.directive == AtElse then [Close, OpenElse]
      else [Close, OpenElseIf(When(token.args.value))];
    assert next.js == st.js + js;
    DepthOf(js);
    DepthAppend(st.js, js);
    WeightsTop(st.stack, top.(hasEmpty := true));
    if Balanced(st) && Surplus(st, token) == 0 {
      StaysUpOf(Weights(st.stack), js);
      StaysUpAppend(0, st.js, js);
    }
  }

  lemma StepBraces(host: Host, st: Progress, token: Token)
    requires Step(host, st, token).Ok? && FramesOk(st.stack)
    ensures var next := Step(host, st, token).value;
      && FramesOk(next.stack)
      && Depth(next.js) - Weights(next.stack) == Depth(st.js) - Weights(st.stack) - Surplus(st, token)
      && (Balanced(st) && Surplus(st, token) == 0 ==> Balanced(next))
  {
    if !token.At? {
      SingleDepth(host, st, token);
    } else if IsOpener(token.directive) {
      OpeningBraces(host, st, token);
    } else if token.directive in {AtElseIf, AtElse, AtEmpty} {
      MiddleBraces(host, st, token);
    } else if Ends(token.directive).Some? {
      ClosingBraces(st, token, Ends(token.directive).value);
    } else {
      SingleDepth(host, st, token);
    }
  }

  lemma {:induction false} StepsBraces(host: Host, st: Progress, tokens: seq<Token>)
    requires Steps(host, st, tokens).Ok? && FramesOk(st.stack)
    ensures var last := Steps(host, st, tokens).value;
      && Depth(last.js) - Weights(last.stack) == Depth(st.js) - Weights(st.stack) - SurplusIn(host, st, tokens)
      && (Balanced(st) && SurplusIn(host, st, tokens) == 0 ==> Balanced(last))
    decreases tokens
  {
    if tokens != [] {
      StepBraces(host, st, tokens[0]);
      StepsBraces(host, Step(host, st, tokens[0]).value, tokens[1..]);
    }
  }

  /** Between any two tokens of a list without a surplus `@empty`, the emitted brace depth is the
      weight of the blocks still open, and no line has closed more than was open. */
  lemma BracesMatchBlocks(host: Host, tokens: seq<Token>, n: nat)
    requires n <= |tokens| && Steps(host, START, tokens[..n]).Ok? && SurplusIn(host, START, tokens[..n]) == 0
    ensures var st := Steps(host, START, tokens[..n]).value;
      && Depth(st.js) == Weights(st.stack)
      && forall i :: 0 <= i <= |st.js| ==> Depth(st.js[..i]) >= 0
  {
    StepsBraces(host, START, tokens[..n]);
    var st := Steps(host, START, tokens[..n]).value;
    forall i | 0 <= i <= |st.js|
      ensures Depth(st.js[..i]) >= 0
    {
      StaysUpPrefix(0, st.js, i);
    }
  }

  /** A pass that ends with every block closed has emitted balanced braces exactly when no
      `@each` had a second `@empty`; otherwise it is short by one brace for each of those. */
  lemma BalancedExactlyWhen(host: Host, tokens: seq<Token>)
    requires Steps(host, START, tokens).Ok? && Steps(host, START, tokens).value.stack == []
    ensures Depth(Steps(host, START, tokens).value.js) == 0 - SurplusIn(host, START, tokens)
    ensures Balanced(Steps(host, START, tokens).value) <==> SurplusIn(host, START, tokens) == 0
  {
    StepsBraces(host, START, tokens);
  }
}
